/** `subscribe --jsonl`: the token, then the stream, on one time budget (src/client/cli.ts). */
module StreamCommand {
  import opened Common
  import opened TokenStores
  import Protocol = RefreshProtocol
  import Auth = GatewayAuth
  import opened Sessions
  import opened Streams

  datatype CommandEnd = Ran(token: Option<string>, began: World, run: Streams.Run) | AuthFailed(outcome: Protocol.Outcome) | Authenticating

  /** The budget covers authentication and streaming together. */
  ghost predicate OnOneBudget(end: CommandEnd, authStart: int, timeoutMs: int, o: Streams.Options)
    requires o.until.Condition?
  {
    end.Ran? ==>
      var run := end.run;
      // Whatever authentication took, the stream's deadline is the command's.
      && authStart <= end.began.now <= authStart + timeoutMs
      && Promises(run, end.began, o.(timeoutMs := Some(authStart + timeoutMs - end.began.now)))
      && run.decidedAt <= authStart + timeoutMs
      && (run.ending.Returned? && run.ending.result.errorCode == Some(NotificationTimeout) ==> run.decidedAt == authStart + timeoutMs)
  }

  lemma RemainderEndsWithBudget(run: Streams.Run, began: World, authStart: int, timeoutMs: int, o: Streams.Options)
    requires o.until.Condition? && began.now <= authStart + timeoutMs
    requires Promises(run, began, o.(timeoutMs := Some(authStart + timeoutMs - began.now)))
    ensures run.decidedAt <= authStart + timeoutMs
    ensures run.ending.Returned? && run.ending.result.errorCode == Some(NotificationTimeout) ==> run.decidedAt == authStart + timeoutMs
  {
  }

  /** resolveBearerToken: an explicit token wins, and without a token database there is none.
      The outcome of a resolution that is not a token is the error the command ends with. */
  method ResolveBearerToken(
      store: TokenStore, storeExists: bool, explicitToken: Option<string>, l: Auth.Life, origin: string, timeoutMs: int,
      ghost start: Protocol.System)
    returns (l': Auth.Life, token: Option<string>, failure: Option<Protocol.Outcome>, done: bool)
    requires Auth.Linked(store, l, start) && Protocol.At(l.system, store.me).Idle?
    requires store.busyTimeout == DEFAULT_BUSY_TIMEOUT_MS && timeoutMs > 0
    modifies store
    ensures Auth.Linked(store, l', start) && l.system.now <= l'.system.now <= l.system.now + timeoutMs
    ensures explicitToken.Some? ==> done && failure.None? && token == explicitToken && l' == l
    ensures explicitToken.None? && !storeExists ==> done && failure.None? && token.None? && l' == l
    ensures !done ==> l'.todo == []
    ensures failure.Some? ==> failure.value.LoginRequired? || failure.value.TimedOut? || failure.value.Failed?
    ensures done && failure.None? && token.None? ==> !storeExists || origin !in old(store.disk.rows)
    // The token is the cached one while it has more than five minutes to live, and else the one a refresh has committed.
    ensures done && failure.None? && explicitToken.None? && storeExists && origin in old(store.disk.rows) ==>
              var first := old(store.disk.rows)[origin];
              if first.expiresAt - 300000 > l.system.now then token == Some(first.accessToken)
              else origin in store.disk.rows && token == Some(store.disk.rows[origin].accessToken)
    ensures failure.Some? ==> Protocol.At(l'.system, store.me) == Protocol.Finished(failure.value)
  {
    token, failure, done, l' := explicitToken, None, true, l;
    if explicitToken.Some? || !storeExists {
      return;
    }
    var outcome: Option<Protocol.Outcome>;
    l', outcome := Auth.ResolveCachedToken(store, l, origin, Some(timeoutMs), start);
    match outcome {
      case None => done := false;
      case Some(NoToken) =>
      case Some(FromCache(access)) => token := Some(access);
      case Some(FromRefresh(access)) => token := Some(access);
      case Some(error) => failure := Some(error);
    }
  }

  /** The clock is the system's; `world` is what the stream will meet. */
  method RunStreamCommand(
      store: TokenStore, storeExists: bool, explicitToken: Option<string>, l: Auth.Life, origin: string, timeoutMs: int,
      o: Streams.Options, world: World, ghost start: Protocol.System)
    returns (l': Auth.Life, end: CommandEnd)
    requires Auth.Linked(store, l, start) && Protocol.At(l.system, store.me).Idle?
    requires store.busyTimeout == DEFAULT_BUSY_TIMEOUT_MS && timeoutMs > 0
    requires o.until.Condition? && Fresh(world) && world.calls == []
    modifies store
    ensures OnOneBudget(end, l.system.now, timeoutMs, o)
    ensures end.Authenticating? ==> l'.todo == []
    ensures explicitToken.Some? ==> end.Ran? && end.token == explicitToken && end.began.now == l.system.now
  {
    var authStart := l.system.now;
    var token, failure, done;
    l', token, failure, done := ResolveBearerToken(store, storeExists, explicitToken, l, origin, timeoutMs, start);
    if !done {
      return l', Authenticating;
    }
    if failure.Some? {
      return l', AuthFailed(failure.value);
    }
    end := StreamWithin(token, authStart, timeoutMs, o, world.(now := l'.system.now));
  }

  /** The stream gets what authentication left of the budget. */
  method StreamWithin(token: Option<string>, authStart: int, timeoutMs: int, o: Streams.Options, began: World) returns (end: CommandEnd)
    requires o.until.Condition? && Fresh(began) && began.calls == [] && authStart <= began.now <= authStart + timeoutMs
    ensures OnOneBudget(end, authStart, timeoutMs, o) && end.Ran? && end.token == token && end.began == began
  {
    var remainingTimeoutMs := Max(0, timeoutMs - (began.now - authStart));
    var run, _ := RunResourceStream(o.(timeoutMs := Some(remainingTimeoutMs)), began);
    RemainderEndsWithBudget(run, began, authStart, timeoutMs, o);
    end := Ran(token, began, run);
  }
}

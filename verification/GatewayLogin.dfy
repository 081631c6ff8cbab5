/** loginToGateway (src/client/auth/gatewayAuth.ts): the other writer of the token database. */
module GatewayLogin {
  import opened Common
  import opened TokenDisk
  import opened TokenStores
  import opened RefreshProtocol
  import opened GatewayAuth

  /** How a request to the gateway ends. */
  datatype Response<T> = Ok(value: T) | Err(error: Error)

  datatype Call = Register | Authorize(clientId: string)

  /** A device code, or the error that ended the login; and the requests made. */
  datatype Authorization = Authorization(clientId: Response<string>, calls: seq<Call>)

  predicate UnknownClient(error: Error) {
    error.OAuth? && error.code in {"invalid_client", "unauthorized_client"}
  }

  /** The client_id to log in with: the cached one as long as the gateway knows it. The gateway's answers in order:
      `registration` to a registration, `first` and `second` to the device authorization requests. */
  method AuthorizeDevice(cached: Option<string>, registration: Response<string>, first: Response<()>, second: Response<()>)
    returns (a: Authorization)
    // A known client costs one request, and is kept.
    ensures cached.Some? && first.Ok? ==> a == Authorization(Ok(cached.value), [Authorize(cached.value)])
    // Only a cached client that the gateway has forgotten is replaced, once.
    ensures cached.Some? && first.Err? ==>
              if first.error == OAuth("invalid_client") || first.error == OAuth("unauthorized_client")
              then a.calls == [Authorize(cached.value), Register] + (if registration.Ok? then [Authorize(registration.value)] else [])
                   && a.clientId == if registration.Err? || second.Ok? then registration else Err(second.error)
              else a == Authorization(Err(first.error), [Authorize(cached.value)])
    // A new client is registered first, and is not tried twice.
    ensures cached.None? ==>
              && a.calls == [Register] + (if registration.Ok? then [Authorize(registration.value)] else [])
              && a.clientId == if registration.Err? || first.Ok? then registration else Err(first.error)
  {
    var calls := [];
    if cached.None? {
      calls := [Register];
      if registration.Err? {
        return Authorization(registration, calls);
      }
    }
    var clientId := if cached.Some? then cached.value else registration.value;
    calls := calls + [Authorize(clientId)];
    if first.Ok? {
      return Authorization(Ok(clientId), calls);
    }
    if cached.None? || !UnknownClient(first.error) {
      return Authorization(Err(first.error), calls);
    }
    calls := calls + [Register];
    if registration.Err? {
      return Authorization(registration, calls);
    }
    clientId := registration.value;
    calls := calls + [Authorize(clientId)];
    a := Authorization(if second.Ok? then Ok(clientId) else Err(second.error), calls);
  }

  lemma LoginBegins(l: Life, me: Pid, origin: string)
    requires At(l.system, me).Idle?
    ensures Moves(l, Login(me, origin), me, Polling(origin))
  {
  }

  lemma LoginEndsInFailure(l: Life, me: Pid, error: Error)
    requires At(l.system, me).Polling?
    ensures Moves(l, LoginFails(me, error), me, Finished(Failed(error)))
  {
  }

  lemma ApprovalMoves(l: Life, me: Pid, family: nat, refreshes: bool, clientId: string, access: string, lifetime: int)
    requires At(l.system, me).Polling? && family !in l.system.gateway.newest
    ensures var t := if refreshes then Some(RefreshToken(family, 0)) else None;
            var row := Row(Some(clientId), access, t, l.system.now + 1000 * lifetime);
            Moves(l, Approve(me, family, refreshes, clientId, access, lifetime), me, Holding(At(l.system, me).origin, row))
  {
  }

  /** pollDeviceToken, as the other processes see it: it ends with an approval, a failure, or not before the script does. */
  method AwaitApproval(store: TokenStore, l: Life, origin: string, clientId: string, ghost start: System)
    returns (l': Life, row: Option<Response<Row>>)
    requires Linked(store, l, start) && At(l.system, store.me) == Polling(origin)
    modifies store`disk
    ensures Linked(store, l', start) && Later(l, l')
    ensures match row
            case None => l'.todo == []
            case Some(Ok(r)) => At(l'.system, store.me) == Holding(origin, r) && r.clientId == Some(clientId)
            case Some(Err(e)) => At(l'.system, store.me) == Finished(Failed(e))
  {
    var me := store.me;
    l' := l;
    while l'.todo != []
      invariant Passed(store, l, l', start, None)
      decreases |l'.todo|
    {
      var a := l'.todo[0];
      if a.LoginFails? && a.p == me {
        OwnStep(l', a, start);
        LoginEndsInFailure(l', me, a.error);
        return Next(l'.(todo := l'.todo[1..]), a), Some(Err(a.error));
      }
      if a.Approve? && a.p == me && a.family !in l'.system.gateway.newest {
        var approved := Approve(me, a.family, a.refreshes, clientId, a.access, a.lifetime);
        OwnStep(l', approved, start);
        ApprovalMoves(l', me, a.family, a.refreshes, clientId, a.access, a.lifetime);
        l' := Next(l'.(todo := l'.todo[1..]), approved);
        return l', Some(Ok(At(l'.system, me).row));
      }
      l' := PassBy(store, l', None, start);
    }
    row := None;
  }

  /** The save commits by itself; it waits for another process's lock for as long as the connection is set to. */
  method SaveApproved(store: TokenStore, l: Life, origin: string, row: Row, ghost start: System)
    returns (l': Life, saved: Option<bool>)
    requires Linked(store, l, start) && At(l.system, store.me) == Holding(origin, row) && store.busyTimeout >= 0
    modifies store`disk
    ensures Linked(store, l', start) && Later(l, l') && l'.system.now <= l.system.now + store.busyTimeout
    ensures match saved
            case None => l'.todo == []
            case Some(true) => At(l'.system, store.me) == Finished(FromCache(row.accessToken)) && Lookup(store.disk.rows, origin) == Some(row)
            case Some(false) =>
              && At(l'.system, store.me) == Finished(Failed(Error.Commit)) && store.disk.writer.Some?
              && l'.system.now == l.system.now + store.busyTimeout
  {
    var me, due := store.me, l.system.now + store.busyTimeout;
    l' := l;
    while l'.todo != []
      invariant Passed(store, l, l', start, Some(due))
      decreases |l'.todo|
    {
      var a := l'.todo[0];
      if (a == SaveLogin(me) && store.disk.writer.None?) || (a == LoginBusy(me) && store.disk.writer.Some? && l'.system.now >= due) {
        OutsideIsBusy(l', start, me);
        var busy := store.Save(origin, row);
        OwnStep(l', a, start);
        l' := Next(l'.(todo := l'.todo[1..]), a);
        return l', Some(!busy);
      }
      l' := PassBy(store, l', Some(due), start);
    }
    saved := None;
  }

  lemma OutsideIsBusy(l: Life, start: System, me: Pid)
    requires Inv(start) && l.system == Run(start, l.past) && !At(l.system, me).Inside?
    ensures l.system.disk.writer != Some(me)
  {
    RunKeepsInv(start, l.past);
  }

  /** Approval, then the save: `stored` is the row saved, None when the login failed. */
  method AwaitTokens(store: TokenStore, l: Life, origin: string, clientId: string, ghost start: System)
    returns (l': Life, stored: Option<Option<Row>>)
    requires Linked(store, l, start) && At(l.system, store.me) == Polling(origin) && store.busyTimeout >= 0
    modifies store`disk
    ensures Linked(store, l', start) && Later(l, l')
    ensures stored.None? ==> l'.todo == []
    ensures stored.Some? ==> LoginEnds(store, l', origin, stored.value)
    ensures stored.Some? && stored.value.Some? ==> stored.value.value.clientId == Some(clientId)
  {
    var row: Option<Response<Row>>;
    l', row := AwaitApproval(store, l, origin, clientId, start);
    if row.None? || row.value.Err? {
      return l', if row.None? then None else Some(None);
    }
    var saved: Option<bool>;
    l', saved := SaveApproved(store, l', origin, row.value.value, start);
    stored := if saved.None? then None else if saved.value then Some(Some(row.value.value)) else Some(None);
  }

  ghost predicate LoginEnds(store: TokenStore, l: Life, origin: string, stored: Option<Row>)
    reads store
  {
    match stored
    case None => At(l.system, store.me).Finished? && At(l.system, store.me).outcome.Failed?
    case Some(row) => At(l.system, store.me) == Finished(FromCache(row.accessToken)) && Lookup(store.disk.rows, origin) == Some(row)
  }

  function ClientOf(row: Option<Row>): Option<string> {
    if row.Some? then row.value.clientId else None
  }

  /** A whole login; None when the script ends first. */
  method LoginToGateway(
      store: TokenStore, l: Life, origin: string, registration: Response<string>, first: Response<()>, second: Response<()>,
      ghost start: System)
    returns (l': Life, stored: Option<Option<Row>>)
    requires Linked(store, l, start) && At(l.system, store.me).Idle? && store.busyTimeout == DEFAULT_BUSY_TIMEOUT_MS
    modifies store`disk
    ensures Linked(store, l', start) && Later(l, l')
    ensures stored.None? ==> l'.todo == []
    ensures stored.Some? ==> LoginEnds(store, l', origin, stored.value)
    // The row is saved under the client_id the device was authorized for.
    ensures stored.Some? && stored.value.Some? ==>
              var clientId := stored.value.value.clientId;
              || (first.Ok? && clientId.Some? && clientId == old(ClientOf(Lookup(store.disk.rows, origin))))
              || (registration.Ok? && clientId == Some(registration.value))
  {
    var me := store.me;
    OutsideSeesRows(l, start, me);
    var cached := store.Get(origin);
    OwnStep(l, Login(me, origin), start);
    LoginBegins(l, me, origin);
    l' := Next(l, Login(me, origin));
    var a := AuthorizeDevice(ClientOf(cached), registration, first, second);
    if a.clientId.Err? {
      var failed := LoginFails(me, a.clientId.error);
      OwnStep(l', failed, start);
      LoginEndsInFailure(l', me, a.clientId.error);
      return Next(l', failed), Some(None);
    }
    l', stored := AwaitTokens(store, l', origin, a.clientId.value, start);
  }
}

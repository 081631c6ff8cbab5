/** Any number of processes that share one token store: refreshes (resolveCachedToken in
    src/client/auth/gatewayAuth.ts), logins and logouts, interleaved in every way, against gateways that rotate
    refresh tokens and revoke a whole family when a consumed one is shown again. */
module RefreshProtocol {
  import opened Common
  import opened TokenDisk

  /** Refresh the access token this long before it expires. */
  const EXPIRY_MARGIN_MS := 300000

  // ---- Gateways ----

  /** For each family, the generation of its newest token; earlier ones are consumed. */
  datatype Gateway = Gateway(newest: map<nat, nat>, revoked: set<nat>)

  predicate Consumed(g: Gateway, t: RefreshToken) {
    t.family in g.newest && t.generation < g.newest[t.family]
  }

  /** What the refresh_token field of a token response says: the current token, nothing, or the empty string. */
  datatype Handed = Named | Omitted | Blank

  /** What a gateway does with a live token: it may rotate it or not, or refuse it without consuming it. */
  datatype Decision = Grants(rotates: bool, handed: Handed, access: string, lifetime: int) | Declines(code: string)

  datatype Answer = Tokens(access: string, refresh: Option<Option<RefreshToken>>, lifetime: int) | Refuses(code: string)

  /** The answer, the gateway afterwards, and whether this very presentation consumed the token. */
  function Exchange(g: Gateway, t: RefreshToken, decision: Decision): (Gateway, Answer, bool) {
    if Consumed(g, t) then (g.(revoked := g.revoked + {t.family}), Refuses("invalid_grant"), false)
    else if t.family !in g.newest || t.family in g.revoked then (g, Refuses("invalid_grant"), false)
    else match decision
      case Declines(code) => (g, Refuses(code), false)
      case Grants(rotates, handed, access, lifetime) =>
        var current := if rotates then RefreshToken(t.family, t.generation + 1) else t;
        var refresh := match handed case Named => Some(Some(current)) case Omitted => None case Blank => Some(None);
        (g.(newest := g.newest[t.family := current.generation]), Tokens(access, refresh, lifetime), rotates)
  }

  // ---- Processes ----

  datatype Error = Abort | Network | OAuth(code: string) | Commit

  datatype Outcome = NoToken | FromCache(access: string) | FromRefresh(access: string) | LoginRequired | TimedOut | Failed(error: Error)

  /** Where the holder of the lock is. `at`: when it re-read the row. `spent`: the row's refresh token has been consumed. */
  datatype Stage =
    | Entered
    | Discovering(row: Row, at: int)
    | Granting(row: Row, at: int)
    | Answered(row: Row, at: int, answer: Answer, spent: bool)
    | Saved(row: Row, at: int, answer: Answer, replacement: Row, spent: bool)
    | Leaving(access: string)
    | Failing(outcome: Outcome)

  datatype Pc =
    | Idle
    | Waiting(origin: string, deadline: Option<int>)
    | Inside(origin: string, deadline: Option<int>, stage: Stage)
    | Finished(outcome: Outcome)
    | Polling(origin: string)                  // a login waiting for the user's approval
    | Holding(origin: string, row: Row)        // a login about to save

  /** Where a family's token is kept. */
  datatype Place = InRow(origin: string) | Held(p: Pid)

  /** A refresh token shown to a gateway: whether it was consumed, and whether its family had lost a token, at the time;
      `late`: its sender had given up on the request, or had died. */
  datatype Presentation = Presentation(origin: string, token: RefreshToken, consumed: bool, lost: bool, late: bool)

  /** `adrift`: the tokens in requests to each origin that their senders gave up on; each may reach the gateway yet, or never.
      Besides what exists: the families that lost a token (it was consumed, but the row does not hold its replacement),
      where each family is kept, the expiry each origin's last refresh stored, and every presentation so far. */
  datatype System = System(
    disk: Disk, now: int, pcs: map<Pid, Pc>, gateway: Gateway, adrift: map<string, multiset<RefreshToken>>,
    lost: set<nat>, home: map<nat, Place>, stored: map<string, int>, presented: seq<Presentation>)

  function At(s: System, p: Pid): Pc {
    if p in s.pcs then s.pcs[p] else Idle
  }

  function Go(s: System, p: Pid, pc: Pc): System {
    s.(pcs := s.pcs[p := pc])
  }

  function InFlight(s: System, origin: string): multiset<RefreshToken> {
    if origin in s.adrift then s.adrift[origin] else multiset{}
  }

  // ---- Decisions of resolveCachedToken ----

  datatype Look = Missing | Fresh(access: string) | Dead | Stale(row: Row)

  /** What a process makes of the row it reads. */
  function LookAt(row: Option<Row>, now: int): Look {
    match row
    case None => Missing
    case Some(r) =>
      if r.expiresAt - EXPIRY_MARGIN_MS > now then Fresh(r.accessToken)
      else if r.refreshToken.None? then Dead else Stale(r)
  }

  /** Refusals that no retry can mend. */
  function RefusalOutcome(code: string): Outcome {
    if code in {"invalid_grant", "invalid_client", "unauthorized_client"} then LoginRequired else Failed(OAuth(code))
  }

  /** Keep the old refresh token only if the response omitted a replacement. */
  function Replacement(row: Row, access: string, refresh: Option<Option<RefreshToken>>, expiresAt: int): Row {
    Row(row.clientId, access, if refresh.Some? then refresh.value else row.refreshToken, expiresAt)
  }

  function ErrorOutcome(error: Error): Outcome {
    if error.Abort? then TimedOut else Failed(error)
  }

  predicate Overdue(deadline: Option<int>, now: int) {
    deadline.Some? && deadline.value - now <= 0
  }

  // ---- Steps ----

  datatype Action =
    | Tick(ms: nat)
    | Start(p: Pid, origin: string, timeoutMs: Option<int>)
    | Acquire(p: Pid)
    | GiveUp(p: Pid)                              // the lock is still held when the wait for it is over
    | Recheck(p: Pid)
    | Discovered(p: Pid, failure: Option<Error>)
    | Present(p: Pid, decision: Decision)         // the refresh token reaches the gateway
    | Deliver(p: Pid)                             // its answer reaches the process, and is saved
    | Lose(p: Pid, error: Error)                  // or the request fails, before or after it reached the gateway
    | CommitNow(p: Pid)
    | CommitFails(p: Pid)
    | Rollback(p: Pid)
    | Login(p: Pid, origin: string)
    | LoginFails(p: Pid, error: Error)
    | Approve(p: Pid, family: nat, refreshes: bool, clientId: string, access: string, lifetime: int)
    | SaveLogin(p: Pid)
    | LoginBusy(p: Pid)
    | Logout(p: Pid, origin: string)
    | ArriveLate(origin: string, token: RefreshToken, decision: Decision)  // a request given up on reaches the gateway
    | Revoke(family: nat)                         // the gateway drops a family of its own accord
    | Crash(p: Pid)

  function DoStart(s: System, p: Pid, origin: string, timeoutMs: Option<int>): System {
    Go(s, p,
       match LookAt(Lookup(s.disk.rows, origin), s.now)
       case Missing => Finished(NoToken)
       case Fresh(access) => Finished(FromCache(access))
       case Dead => Finished(LoginRequired)
       case Stale(_) => Waiting(origin, if timeoutMs.Some? then Some(s.now + timeoutMs.value) else None))
  }

  function DoAcquire(s: System, p: Pid, pc: Pc): System
    requires pc.Waiting?
  {
    Go(s.(disk := Begin(s.disk, p)), p, Inside(pc.origin, pc.deadline, Entered))
  }

  /** The first thing done under the lock: the budget, then the row as it is now. */
  function Rechecked(s: System, p: Pid, origin: string, deadline: Option<int>): Stage {
    if Overdue(deadline, s.now) then Failing(TimedOut)
    else match LookAt(Lookup(Visible(s.disk, p), origin), s.now)
      case Missing => Failing(LoginRequired)
      case Fresh(access) => Leaving(access)
      case Dead => Failing(LoginRequired)
      case Stale(row) => Discovering(row, s.now)
  }

  function DoPresent(s: System, p: Pid, pc: Pc, decision: Decision): System
    requires pc.Inside? && pc.stage.Granting? && pc.stage.row.refreshToken.Some?
  {
    var t := pc.stage.row.refreshToken.value;
    var (gateway, answer, spent) := Exchange(s.gateway, t, decision);
    Go(s.(gateway := gateway,
          presented := s.presented + [Presentation(pc.origin, t, Consumed(s.gateway, t), t.family in s.lost, false)]),
       p, Inside(pc.origin, pc.deadline, Answered(pc.stage.row, pc.stage.at, answer, spent)))
  }

  function DoDeliver(s: System, p: Pid, pc: Pc): System
    requires pc.Inside? && pc.stage.Answered? && s.disk.writer == Some(p)
  {
    var stage := pc.stage;
    match stage.answer
    case Refuses(code) => Go(s, p, Inside(pc.origin, pc.deadline, Failing(RefusalOutcome(code))))
    case Tokens(access, refresh, lifetime) =>
      var row := Replacement(stage.row, access, refresh, s.now + 1000 * lifetime);
      Go(s.(disk := Write(s.disk, p, s.disk.draft[pc.origin := row])), p,
         Inside(pc.origin, pc.deadline, Saved(stage.row, stage.at, stage.answer, row, stage.spent)))
  }

  predicate Spent(stage: Stage) {
    (stage.Answered? || stage.Saved?) && stage.spent
  }

  /** The row's token is consumed and its replacement not yet committed. */
  predicate SpentOn(s: System, origin: string) {
    && s.disk.writer.Some?
    && var pc := At(s, s.disk.writer.value);
       pc.Inside? && pc.origin == origin && Spent(pc.stage)
  }

  /** The family, if any, that has lost a token when the holder's request or transaction is over and its row is `row`:
      the one whose token was consumed, unless the row now holds the newest. */
  function Loss(s: System, pc: Pc, row: Option<Row>): set<nat>
    requires pc.Inside?
  {
    if Spent(pc.stage) && pc.stage.row.refreshToken.Some? && !HoldsNewest(s.gateway, row, pc.stage.row.refreshToken.value.family)
    then {pc.stage.row.refreshToken.value.family} else {}
  }

  /** A request that has not reached the gateway when its sender gives up, or dies, is still under way. */
  function Abandon(s: System, pc: Pc): map<string, multiset<RefreshToken>>
    requires pc.Inside?
  {
    if pc.stage.Granting? && pc.stage.row.refreshToken.Some?
    then s.adrift[pc.origin := InFlight(s, pc.origin) + multiset{pc.stage.row.refreshToken.value}] else s.adrift
  }

  function DoLose(s: System, p: Pid, pc: Pc, error: Error): System
    requires pc.Inside?
  {
    Go(s.(lost := s.lost + Loss(s, pc, Lookup(s.disk.rows, pc.origin)), adrift := Abandon(s, pc)),
       p, Inside(pc.origin, pc.deadline, Failing(ErrorOutcome(error))))
  }

  function Logged(s: System, origin: string, t: RefreshToken): System
    requires t in InFlight(s, origin)
  {
    s.(adrift := s.adrift[origin := InFlight(s, origin) - multiset{t}],
       presented := s.presented + [Presentation(origin, t, Consumed(s.gateway, t), t.family in s.lost, true)])
  }

  /** A request given up on reaches the gateway. Nobody is there to receive the answer: a rotation is a loss. */
  function DoArriveLate(s: System, origin: string, t: RefreshToken, decision: Decision): System
    requires t in InFlight(s, origin)
  {
    var (gateway, _, spent) := Exchange(s.gateway, t, decision);
    Logged(s, origin, t).(gateway := gateway, lost := s.lost + (if spent then {t.family} else {}))
  }

  /** The transaction ends. */
  function DoEnd(s: System, p: Pid, pc: Pc, commit: bool, next: Pc): System
    requires pc.Inside?
  {
    var disk := End(s.disk, commit);
    var stored := if commit && pc.stage.Saved? then s.stored[pc.origin := pc.stage.replacement.expiresAt] else s.stored;
    Go(s.(disk := disk, lost := s.lost + Loss(s, pc, Lookup(disk.rows, pc.origin)), stored := stored, adrift := Abandon(s, pc)),
       p, next)
  }

  predicate HoldsNewest(g: Gateway, row: Option<Row>, family: nat) {
    family in g.newest && row.Some? && row.value.refreshToken == Some(RefreshToken(family, g.newest[family]))
  }

  function DoApprove(s: System, p: Pid, pc: Pc, family: nat, refreshes: bool, clientId: string, access: string, lifetime: int): System
    requires pc.Polling?
  {
    var t := if refreshes then Some(RefreshToken(family, 0)) else None;
    Go(s.(gateway := s.gateway.(newest := s.gateway.newest[family := 0]), home := s.home[family := Held(p)]),
       p, Holding(pc.origin, Row(Some(clientId), access, t, s.now + 1000 * lifetime)))
  }

  function DoSaveLogin(s: System, p: Pid, pc: Pc): System
    requires pc.Holding? && s.disk.writer.None?
  {
    var home := if pc.row.refreshToken.Some? then s.home[pc.row.refreshToken.value.family := InRow(pc.origin)] else s.home;
    Go(s.(disk := Write(s.disk, p, s.disk.rows[pc.origin := pc.row]), home := home, stored := s.stored - {pc.origin}),
       p, Finished(FromCache(pc.row.accessToken)))
  }

  /** One step; an action whose time has not come changes nothing. */
  function Step(s: System, a: Action): System {
    match a
    case Tick(ms) => s.(now := s.now + ms)
    case Start(p, origin, timeoutMs) => if At(s, p).Idle? then DoStart(s, p, origin, timeoutMs) else s
    case Acquire(p) => if At(s, p).Waiting? && s.disk.writer.None? then DoAcquire(s, p, At(s, p)) else s
    case GiveUp(p) => if At(s, p).Waiting? && s.disk.writer.Some? then Go(s, p, Finished(TimedOut)) else s
    case Recheck(p) =>
      if IsAt(s, p, Entered) then Go(s, p, At(s, p).(stage := Rechecked(s, p, At(s, p).origin, At(s, p).deadline))) else s
    case Discovered(p, failure) =>
      if At(s, p).Inside? && At(s, p).stage.Discovering? then
        Go(s, p, At(s, p).(stage := if failure.Some? then Failing(ErrorOutcome(failure.value))
                                    else Granting(At(s, p).stage.row, At(s, p).stage.at)))
      else s
    case Present(p, decision) =>
      if At(s, p).Inside? && At(s, p).stage.Granting? && At(s, p).stage.row.refreshToken.Some?
      then DoPresent(s, p, At(s, p), decision) else s
    case Deliver(p) =>
      if At(s, p).Inside? && At(s, p).stage.Answered? && s.disk.writer == Some(p) then DoDeliver(s, p, At(s, p)) else s
    case Lose(p, error) =>
      if At(s, p).Inside? && (At(s, p).stage.Granting? || At(s, p).stage.Answered?)
      then DoLose(s, p, At(s, p), error) else s
    case CommitNow(p) =>
      if At(s, p).Inside? && (At(s, p).stage.Saved? || At(s, p).stage.Leaving?)
      then DoEnd(s, p, At(s, p), true, Finished(FromRefresh(Given(At(s, p).stage)))) else s
    case CommitFails(p) =>
      if At(s, p).Inside? && (At(s, p).stage.Saved? || At(s, p).stage.Leaving?)
      then DoEnd(s, p, At(s, p), false, Finished(Failed(Error.Commit))) else s
    case Rollback(p) =>
      if At(s, p).Inside? && At(s, p).stage.Failing? then DoEnd(s, p, At(s, p), false, Finished(At(s, p).stage.outcome)) else s
    case Login(p, origin) => if At(s, p).Idle? then Go(s, p, Polling(origin)) else s
    case LoginFails(p, error) => if At(s, p).Polling? then Go(s, p, Finished(Failed(error))) else s
    case Approve(p, family, refreshes, clientId, access, lifetime) =>
      if At(s, p).Polling? && family !in s.gateway.newest
      then DoApprove(s, p, At(s, p), family, refreshes, clientId, access, lifetime) else s
    case SaveLogin(p) => if At(s, p).Holding? && s.disk.writer.None? then DoSaveLogin(s, p, At(s, p)) else s
    case LoginBusy(p) => if At(s, p).Holding? && s.disk.writer.Some? then Go(s, p, Finished(Failed(Error.Commit))) else s
    case Logout(p, origin) =>
      if At(s, p).Idle? && s.disk.writer.None?
      then s.(disk := Write(s.disk, p, s.disk.rows - {origin}), stored := s.stored - {origin}) else s
    case ArriveLate(origin, token, decision) => if token in InFlight(s, origin) then DoArriveLate(s, origin, token, decision) else s
    case Revoke(family) => s.(gateway := s.gateway.(revoked := s.gateway.revoked + {family}))
    case Crash(p) => if At(s, p).Inside? then DoEnd(s, p, At(s, p), false, Idle) else Go(s, p, Idle)
  }

  predicate IsAt(s: System, p: Pid, stage: Stage) {
    At(s, p).Inside? && At(s, p).stage == stage
  }

  /** The token a transaction that is about to commit returns. */
  function Given(stage: Stage): string
    requires stage.Saved? || stage.Leaving?
  {
    if stage.Saved? then stage.replacement.accessToken else stage.access
  }

  function Run(s: System, actions: seq<Action>): System {
    if actions == [] then s else Step(Run(s, actions[..|actions| - 1]), actions[|actions| - 1])
  }

  // ---- The invariant ----

  /** Only the process inside holds the lock. */
  ghost predicate OneInside(s: System) {
    forall p: Pid :: At(s, p).Inside? <==> s.disk.writer == Some(p)
  }

  /** A stored refresh token is its family's newest, except while the lock holder has spent it, or after it was lost. */
  ghost predicate TokenIsNewest(s: System, origin: string, t: RefreshToken) {
    && t.family in s.gateway.newest && t.family in s.home && s.home[t.family] == InRow(origin)
    && if t.family in s.lost then t.generation < s.gateway.newest[t.family]
       else s.gateway.newest[t.family] == t.generation + (if SpentOn(s, origin) then 1 else 0)
  }

  ghost predicate RowsAreNewest(s: System) {
    forall o :: o in s.disk.rows && s.disk.rows[o].refreshToken.Some? ==> TokenIsNewest(s, o, s.disk.rows[o].refreshToken.value)
  }

  /** What the lock holder remembers is still so. */
  ghost predicate HolderIsRight(s: System, origin: string, stage: Stage) {
    && (stage.Discovering? || stage.Granting? || stage.Answered? || stage.Saved? ==>
          && Lookup(s.disk.rows, origin) == Some(stage.row) && stage.row.refreshToken.Some?
          && stage.row.expiresAt - EXPIRY_MARGIN_MS <= stage.at <= s.now)
    && (stage.Answered? || stage.Saved? ==> AnswerIsRight(s, stage.row, stage.answer, stage.spent))
    && (stage.Saved? ==>
          && stage.answer.Tokens?
          && stage.replacement.clientId == stage.row.clientId && stage.replacement.accessToken == stage.answer.access
          && stage.replacement.refreshToken == match stage.answer.refresh case Some(refresh) => refresh case None => stage.row.refreshToken)
    && (stage.Failing? ==> stage.outcome.LoginRequired? || stage.outcome.TimedOut? || stage.outcome.Failed?)
    && (stage.Leaving? ==> Lookup(s.disk.rows, origin).Some? && s.disk.rows[origin].accessToken == stage.access)
    && s.disk.draft == (if stage.Saved? then s.disk.rows[origin := stage.replacement] else s.disk.rows)
  }

  /** A refresh token in an answer is the next of its family if the gateway rotated, and else the one that was shown. */
  ghost predicate AnswerIsRight(s: System, row: Row, answer: Answer, spent: bool) {
    match answer
    case Refuses(_) => !spent
    case Tokens(_, refresh, _) =>
      && row.refreshToken.Some? && (spent ==> row.refreshToken.value.family !in s.lost)
      && (Names(refresh) ==>
            var t := row.refreshToken.value;
            refresh.value.value == if spent then RefreshToken(t.family, t.generation + 1) else t)
  }

  /** The response names a refresh token. */
  predicate Names(refresh: Option<Option<RefreshToken>>) {
    refresh.Some? && refresh.value.Some?
  }

  ghost predicate LoginsAreNew(s: System) {
    forall p: Pid :: At(s, p).Holding? && At(s, p).row.refreshToken.Some? ==>
      var t := At(s, p).row.refreshToken.value;
      && t.family in s.gateway.newest && s.gateway.newest[t.family] == t.generation
      && t.family !in s.lost && t.family in s.home && s.home[t.family] == Held(p)
  }

  ghost predicate LostAreKnown(s: System) {
    s.lost <= s.gateway.newest.Keys
  }

  /** A request adrift holds a token that the origin's row held: not a newer one than the row of its family holds now,
      and a consumed one if the family has lost a token. */
  ghost predicate IsOld(g: Gateway, home: map<nat, Place>, lost: set<nat>, rows: map<string, Row>, origin: string, t: RefreshToken) {
    && t.family in g.newest && t.family in home && home[t.family] == InRow(origin)
    && t.generation <= g.newest[t.family] && (t.family in lost ==> t.generation < g.newest[t.family])
    && (StillKept(rows, origin, t) ==> t.generation <= rows[origin].refreshToken.value.generation)
  }

  /** The origin's row holds a token of the family. */
  predicate StillKept(rows: map<string, Row>, origin: string, t: RefreshToken) {
    origin in rows && rows[origin].refreshToken.Some? && rows[origin].refreshToken.value.family == t.family
  }

  ghost predicate AdriftAreOld(s: System) {
    forall o, t :: o in s.adrift && t in s.adrift[o] ==> IsOld(s.gateway, s.home, s.lost, s.disk.rows, o, t)
  }

  /** A refresh token shown by a process inside the lock was a consumed one exactly if its family had lost a token by then.
      One that came late was too if its family had. */
  ghost predicate ReplaysAreExplained(s: System) {
    forall i :: 0 <= i < |s.presented| ==>
      var shown := s.presented[i];
      (shown.lost ==> shown.consumed && shown.token.family in s.lost) && (shown.consumed ==> shown.lost || shown.late)
  }

  ghost predicate StoredIsInRow(s: System) {
    forall o :: o in s.stored ==> o in s.disk.rows && s.disk.rows[o].expiresAt == s.stored[o]
  }

  ghost predicate HolderInv(s: System) {
    s.disk.writer.Some? && At(s, s.disk.writer.value).Inside? ==>
      HolderIsRight(s, At(s, s.disk.writer.value).origin, At(s, s.disk.writer.value).stage)
  }

  ghost predicate Inv(s: System) {
    && OneInside(s) && RowsAreNewest(s) && HolderInv(s) && LoginsAreNew(s) && LostAreKnown(s)
    && AdriftAreOld(s) && ReplaysAreExplained(s) && StoredIsInRow(s)
  }

  /** Nothing in progress, and every row holds its family's newest token. */
  ghost predicate Init(s: System) {
    && s.disk.writer.None? && s.pcs == map[] && s.adrift == map[] && s.lost == {} && s.presented == [] && s.stored == map[]
    && RowsAreNewest(s)
  }

  lemma InitInv(s: System)
    requires Init(s)
    ensures Inv(s)
  {
  }

  lemma StartKeepsInv(s: System, p: Pid, origin: string, timeoutMs: Option<int>)
    requires Inv(s) && At(s, p).Idle?
    ensures Inv(DoStart(s, p, origin, timeoutMs))
  {
  }

  lemma AcquireKeepsInv(s: System, p: Pid)
    requires Inv(s) && At(s, p).Waiting? && s.disk.writer.None?
    ensures Inv(DoAcquire(s, p, At(s, p)))
  {
  }

  /** The holder moves on without touching anything else. */
  lemma HolderMoves(s: System, p: Pid, stage: Stage)
    requires Inv(s) && At(s, p).Inside? && Spent(stage) == Spent(At(s, p).stage) && HolderIsRight(s, At(s, p).origin, stage)
    ensures Inv(Go(s, p, At(s, p).(stage := stage)))
  {
  }

  lemma PresentKeepsInv(s: System, p: Pid, decision: Decision)
    requires Inv(s) && At(s, p).Inside? && At(s, p).stage.Granting?
    ensures Inv(DoPresent(s, p, At(s, p), decision))
  {
  }

  lemma DeliverKeepsInv(s: System, p: Pid)
    requires Inv(s) && At(s, p).Inside? && At(s, p).stage.Answered?
    ensures Inv(DoDeliver(s, p, At(s, p)))
  {
    if At(s, p).stage.answer.Refuses? {
      HolderMoves(s, p, Failing(RefusalOutcome(At(s, p).stage.answer.code)));
    }
  }

  lemma AbandonKeepsInv(s: System, p: Pid)
    requires Inv(s) && At(s, p).Inside?
    ensures Inv(s.(adrift := Abandon(s, At(s, p))))
  {
    var pc := At(s, p);
    if pc.stage.Granting? {
      assert TokenIsNewest(s, pc.origin, pc.stage.row.refreshToken.value);
    }
  }

  lemma LoseUnansweredKeepsInv(s: System, p: Pid, error: Error)
    requires Inv(s) && At(s, p).Inside? && At(s, p).stage.Granting?
    ensures Inv(DoLose(s, p, At(s, p), error))
  {
    AbandonKeepsInv(s, p);
    HolderMoves(s.(adrift := Abandon(s, At(s, p))), p, Failing(ErrorOutcome(error)));
    assert s.lost + {} == s.lost;
  }

  lemma LoseAnsweredKeepsInv(s: System, p: Pid, error: Error)
    requires Inv(s) && At(s, p).Inside? && At(s, p).stage.Answered?
    ensures Inv(DoLose(s, p, At(s, p), error))
  {
  }

  lemma EndKeepsInv(s: System, p: Pid, commit: bool, next: Pc)
    requires Inv(s) && At(s, p).Inside? && !At(s, p).stage.Granting?
    requires commit ==> At(s, p).stage.Saved? || At(s, p).stage.Leaving?
    requires next.Finished? || next.Idle?
    ensures Inv(DoEnd(s, p, At(s, p), commit, next))
  {
  }

  lemma CrashKeepsInv(s: System, p: Pid)
    requires Inv(s) && At(s, p).Inside?
    ensures Inv(DoEnd(s, p, At(s, p), false, Idle))
  {
    if At(s, p).stage.Granting? {
      LoseUnansweredKeepsInv(s, p, Network);
      EndKeepsInv(DoLose(s, p, At(s, p), Network), p, false, Idle);
    } else {
      EndKeepsInv(s, p, false, Idle);
    }
  }

  lemma ApproveKeepsInv(s: System, p: Pid, family: nat, refreshes: bool, clientId: string, access: string, lifetime: int)
    requires Inv(s) && At(s, p).Polling? && family !in s.gateway.newest
    ensures Inv(DoApprove(s, p, At(s, p), family, refreshes, clientId, access, lifetime))
  {
  }

  lemma SaveLoginKeepsInv(s: System, p: Pid)
    requires Inv(s) && At(s, p).Holding? && s.disk.writer.None?
    ensures Inv(DoSaveLogin(s, p, At(s, p)))
  {
  }

  /** A process outside moves on without touching anything else. */
  lemma OutsiderMoves(s: System, p: Pid, pc: Pc)
    requires Inv(s) && !At(s, p).Inside? && !pc.Inside? && !pc.Holding?
    ensures Inv(Go(s, p, pc))
  {
  }

  lemma TickKeepsInv(s: System, ms: nat)
    requires Inv(s)
    ensures Inv(s.(now := s.now + ms))
  {
  }

  lemma RevokeKeepsInv(s: System, family: nat)
    requires Inv(s)
    ensures Inv(s.(gateway := s.gateway.(revoked := s.gateway.revoked + {family})))
  {
  }

  lemma LoggedKeepsInv(s: System, origin: string, t: RefreshToken)
    requires Inv(s) && t in InFlight(s, origin)
    ensures Inv(Logged(s, origin, t)) && IsOld(s.gateway, s.home, s.lost, s.disk.rows, origin, t)
  {
    assert IsOld(s.gateway, s.home, s.lost, s.disk.rows, origin, t);
  }

  lemma LateRotationKeepsInv(s: System, origin: string, t: RefreshToken)
    requires Inv(s) && IsOld(s.gateway, s.home, s.lost, s.disk.rows, origin, t) && !Consumed(s.gateway, t)
    ensures Inv(s.(gateway := s.gateway.(newest := s.gateway.newest[t.family := t.generation + 1]), lost := s.lost + {t.family}))
  {
  }

  /** What a late request can do at the gateway. */
  lemma LateEffects(s: System, origin: string, t: RefreshToken, decision: Decision)
    requires t in InFlight(s, origin) && t.family in s.gateway.newest && t.generation <= s.gateway.newest[t.family]
    ensures var late, logged := DoArriveLate(s, origin, t, decision), Logged(s, origin, t);
            if Exchange(s.gateway, t, decision).2 then
              !Consumed(s.gateway, t) &&
              late == logged.(gateway := s.gateway.(newest := s.gateway.newest[t.family := t.generation + 1]), lost := s.lost + {t.family})
            else if Consumed(s.gateway, t) then
              late == logged.(gateway := s.gateway.(revoked := s.gateway.revoked + {t.family}))
            else late == logged
  {
    assert !Consumed(s.gateway, t) ==> s.gateway.newest[t.family := t.generation] == s.gateway.newest;
    assert s.lost + {} == s.lost;
  }

  lemma ArriveLateKeepsInv(s: System, origin: string, t: RefreshToken, decision: Decision)
    requires Inv(s) && t in InFlight(s, origin)
    ensures Inv(DoArriveLate(s, origin, t, decision))
  {
    LoggedKeepsInv(s, origin, t);
    LateEffects(s, origin, t, decision);
    if Exchange(s.gateway, t, decision).2 {
      LateRotationKeepsInv(Logged(s, origin, t), origin, t);
    } else if Consumed(s.gateway, t) {
      RevokeKeepsInv(Logged(s, origin, t), t.family);
    }
  }

  lemma LogoutKeepsInv(s: System, p: Pid, origin: string)
    requires Inv(s)
    ensures Inv(Step(s, Logout(p, origin)))
  {
  }

  lemma RefreshStepKeepsInv(s: System, a: Action)
    requires Inv(s) && (a.Recheck? || a.Discovered? || a.Present? || a.Deliver? || a.Lose?)
    ensures Inv(Step(s, a))
  {
    var p, pc := a.p, At(s, a.p);
    match a {
      case Recheck(_) => if IsAt(s, p, Entered) { HolderMoves(s, p, Rechecked(s, p, pc.origin, pc.deadline)); }
      case Discovered(_, failure) =>
        if pc.Inside? && pc.stage.Discovering? {
          HolderMoves(s, p, if failure.Some? then Failing(ErrorOutcome(failure.value)) else Granting(pc.stage.row, pc.stage.at));
        }
      case Present(_, decision) => if pc.Inside? && pc.stage.Granting? { PresentKeepsInv(s, p, decision); }
      case Deliver(_) => if pc.Inside? && pc.stage.Answered? { DeliverKeepsInv(s, p); }
      case Lose(_, error) =>
        if pc.Inside? && pc.stage.Granting? { LoseUnansweredKeepsInv(s, p, error); }
        if pc.Inside? && pc.stage.Answered? { LoseAnsweredKeepsInv(s, p, error); }
    }
  }

  lemma EndStepKeepsInv(s: System, a: Action)
    requires Inv(s) && (a.CommitNow? || a.CommitFails? || a.Rollback? || a.Crash?)
    ensures Inv(Step(s, a))
  {
    var p, pc := a.p, At(s, a.p);
    if !pc.Inside? {
      OutsiderMoves(s, p, Idle);
    } else if a.Crash? {
      CrashKeepsInv(s, p);
    } else if pc.stage.Failing? {
      EndKeepsInv(s, p, false, Finished(pc.stage.outcome));
    } else if pc.stage.Saved? || pc.stage.Leaving? {
      EndKeepsInv(s, p, a.CommitNow?, Finished(if a.CommitNow? then FromRefresh(Given(pc.stage)) else Failed(Error.Commit)));
    }
  }

  lemma OutsideStepKeepsInv(s: System, a: Action)
    requires Inv(s) && (a.Start? || a.Acquire? || a.GiveUp? || a.Login? || a.LoginFails? || a.Approve? || a.SaveLogin? || a.LoginBusy?)
    ensures Inv(Step(s, a))
  {
    var p, pc := a.p, At(s, a.p);
    match a {
      case Start(_, origin, timeoutMs) => if pc.Idle? { StartKeepsInv(s, p, origin, timeoutMs); }
      case Acquire(_) => if pc.Waiting? && s.disk.writer.None? { AcquireKeepsInv(s, p); }
      case GiveUp(_) => if pc.Waiting? { OutsiderMoves(s, p, Finished(TimedOut)); }
      case Login(_, origin) => if pc.Idle? { OutsiderMoves(s, p, Polling(origin)); }
      case LoginFails(_, error) => if pc.Polling? { OutsiderMoves(s, p, Finished(Failed(error))); }
      case Approve(_, family, refreshes, clientId, access, lifetime) =>
        if pc.Polling? && family !in s.gateway.newest { ApproveKeepsInv(s, p, family, refreshes, clientId, access, lifetime); }
      case SaveLogin(_) => if pc.Holding? && s.disk.writer.None? { SaveLoginKeepsInv(s, p); }
      case LoginBusy(_) => if pc.Holding? { OutsiderMoves(s, p, Finished(Failed(Error.Commit))); }
    }
  }

  lemma StepKeepsInv(s: System, a: Action)
    requires Inv(s)
    ensures Inv(Step(s, a))
  {
    match a {
      case Tick(ms) => TickKeepsInv(s, ms);
      case ArriveLate(origin, token, decision) => if token in InFlight(s, origin) { ArriveLateKeepsInv(s, origin, token, decision); }
      case Revoke(family) => RevokeKeepsInv(s, family);
      case Logout(p, origin) => LogoutKeepsInv(s, p, origin);
      case Recheck(_) => RefreshStepKeepsInv(s, a);
      case Discovered(_, _) => RefreshStepKeepsInv(s, a);
      case Present(_, _) => RefreshStepKeepsInv(s, a);
      case Deliver(_) => RefreshStepKeepsInv(s, a);
      case Lose(_, _) => RefreshStepKeepsInv(s, a);
      case CommitNow(_) => EndStepKeepsInv(s, a);
      case CommitFails(_) => EndStepKeepsInv(s, a);
      case Rollback(_) => EndStepKeepsInv(s, a);
      case Crash(_) => EndStepKeepsInv(s, a);
      case _ => OutsideStepKeepsInv(s, a);
    }
  }

  lemma {:induction false} RunKeepsInv(s: System, actions: seq<Action>)
    requires Inv(s)
    ensures Inv(Run(s, actions))
    decreases |actions|
  {
    if actions == [] {
    } else {
      RunKeepsInv(s, actions[..|actions| - 1]);
      StepKeepsInv(Run(s, actions[..|actions| - 1]), actions[|actions| - 1]);
    }
  }

  // ---- Replays ----

  /** After the gateway consumed the token, its response does not arrive or does not name the replacement, or the process
      dies or the commit fails; or a request given up on arrives after all, and consumes the token with nobody to receive
      the replacement. Nothing the program does can bring the replacement back. */
  predicate Fault(s: System, a: Action) {
    match a
    case Lose(p, _) => At(s, p).Inside? && At(s, p).stage.Answered? && At(s, p).stage.spent
    case Crash(p) => At(s, p).Inside? && Spent(At(s, p).stage)
    case CommitFails(p) => At(s, p).Inside? && At(s, p).stage.Saved? && At(s, p).stage.spent
    case CommitNow(p) =>
      && At(s, p).Inside? && At(s, p).stage.Saved? && At(s, p).stage.spent
      && At(s, p).stage.answer.Tokens? && !Names(At(s, p).stage.answer.refresh)
    case ArriveLate(origin, token, decision) => token in InFlight(s, origin) && Exchange(s.gateway, token, decision).2
    case _ => false
  }

  predicate Faultless(s: System, actions: seq<Action>) {
    actions != [] ==>
      var before := actions[..|actions| - 1];
      Faultless(s, before) && !Fault(Run(s, before), actions[|actions| - 1])
  }

  /** What holds of a process whose token has been consumed by its own request. */
  ghost predicate SpentRight(s: System, pc: Pc)
    requires pc.Inside? && Spent(pc.stage)
  {
    && Lookup(s.disk.rows, pc.origin) == Some(pc.stage.row) && pc.stage.row.refreshToken.Some?
    && (var t := pc.stage.row.refreshToken.value;
        t.family in s.gateway.newest && s.gateway.newest[t.family] == t.generation + 1 && t.family !in s.lost)
    && (pc.stage.Saved? ==> s.disk.draft == s.disk.rows[pc.origin := pc.stage.replacement]
                            && AnswerIsRight(s, pc.stage.row, pc.stage.answer, true) && pc.stage.answer.Tokens?
                            && pc.stage.replacement.refreshToken
                               == match pc.stage.answer.refresh case Some(refresh) => refresh case None => pc.stage.row.refreshToken)
  }

  lemma SpentIsRight(s: System, p: Pid)
    requires Inv(s) && At(s, p).Inside? && Spent(At(s, p).stage)
    ensures SpentRight(s, At(s, p))
  {
    assert TokenIsNewest(s, At(s, p).origin, s.disk.rows[At(s, p).origin].refreshToken.value);
  }

  predicate Ends(a: Action) {
    a.Lose? || a.Crash? || a.CommitFails? || a.CommitNow?
  }

  lemma LossAtEnd(s: System, a: Action)
    requires Ends(a) && (At(s, a.p).Inside? && Spent(At(s, a.p).stage) ==> SpentRight(s, At(s, a.p)))
    ensures Step(s, a).lost != s.lost <==> Fault(s, a)
  {
  }

  lemma LossesStay(s: System, a: Action)
    ensures s.lost <= Step(s, a).lost
  {
  }

  /** A family loses a token exactly at a fault. */
  lemma LostExactlyAtFault(s: System, a: Action)
    requires Inv(s)
    ensures Step(s, a).lost != s.lost <==> Fault(s, a)
  {
    if a.ArriveLate? && a.token in InFlight(s, a.origin) {
      LoggedKeepsInv(s, a.origin, a.token);
      LateEffects(s, a.origin, a.token, a.decision);
    }
    if Ends(a) {
      if At(s, a.p).Inside? && Spent(At(s, a.p).stage) {
        SpentIsRight(s, a.p);
      }
      LossAtEnd(s, a);
    }
  }

  /** No request that its sender gave up on arrives. */
  predicate NoneLate(actions: seq<Action>) {
    forall i :: 0 <= i < |actions| ==> !actions[i].ArriveLate?
  }

  ghost predicate NoneLateShown(s: System) {
    forall i :: 0 <= i < |s.presented| ==> !s.presented[i].late
  }

  /** Over every run: a consumed refresh token is shown to a gateway exactly for a family that had lost a token, or in a
      request that came late; a family has lost one exactly if a fault occurred; and in a run without faults in which no
      request comes late, no consumed token is ever shown. */
  lemma {:induction false} ConsumedTokensAreShownOnlyAfterFaults(s: System, actions: seq<Action>)
    requires Init(s)
    ensures var end := Run(s, actions);
            && ReplaysAreExplained(end)
            && (end.lost == {} <==> Faultless(s, actions))
            && (NoneLate(actions) ==> NoneLateShown(end))
            && (Faultless(s, actions) && NoneLate(actions) ==> forall i :: 0 <= i < |end.presented| ==> !end.presented[i].consumed)
    decreases |actions|
  {
    InitInv(s);
    RunKeepsInv(s, actions);
    if actions == [] {
    } else {
      var before := actions[..|actions| - 1];
      ConsumedTokensAreShownOnlyAfterFaults(s, before);
      RunKeepsInv(s, before);
      LossesStay(Run(s, before), actions[|actions| - 1]);
      LostExactlyAtFault(Run(s, before), actions[|actions| - 1]);
      if NoneLate(actions) { LateOnlyByArrival(Run(s, before), actions[|actions| - 1]); }
    }
  }

  lemma LateOnlyByArrival(s: System, a: Action)
    requires NoneLateShown(s) && !a.ArriveLate?
    ensures NoneLateShown(Step(s, a))
  {
  }

  /** A late request shows a consumed token exactly if the family has lost one, or the row has gone on: it holds a later
      token of the family, or the process inside has just spent the row's. */
  lemma LateRequestIsReplayExactlyWhen(s: System, origin: string, t: RefreshToken)
    requires Inv(s) && t in InFlight(s, origin) && StillKept(s.disk.rows, origin, t)
    ensures Consumed(s.gateway, t) <==>
            t.family in s.lost || t.generation < s.disk.rows[origin].refreshToken.value.generation || SpentOn(s, origin)
  {
    LoggedKeepsInv(s, origin, t);
    assert TokenIsNewest(s, origin, s.disk.rows[origin].refreshToken.value);
  }

  /** A late request for a family that a login replaced leaves the login's own family alone. */
  lemma LateRequestSparesALaterLogin(s: System, origin: string, t: RefreshToken, decision: Decision)
    requires Inv(s) && t in InFlight(s, origin) && !StillKept(s.disk.rows, origin, t)
    requires origin in s.disk.rows && s.disk.rows[origin].refreshToken.Some?
    ensures var late, family := Step(s, ArriveLate(origin, t, decision)), s.disk.rows[origin].refreshToken.value.family;
            && late.disk == s.disk && (family in late.lost <==> family in s.lost)
            && (family in late.gateway.revoked <==> family in s.gateway.revoked)
            && family in late.gateway.newest && late.gateway.newest[family] == s.gateway.newest[family]
  {
    LoggedKeepsInv(s, origin, t);
    LateEffects(s, origin, t, decision);
    assert TokenIsNewest(s, origin, s.disk.rows[origin].refreshToken.value);
  }

  ghost predicate ConsumedWasShown(s: System, family: nat) {
    exists i :: 0 <= i < |s.presented| && s.presented[i].consumed && s.presented[i].token.family == family
  }

  lemma RevokedInStep(s: System, a: Action, family: nat)
    requires family in Step(s, a).gateway.revoked
    ensures family in s.gateway.revoked || a == Revoke(family) || ConsumedWasShown(Step(s, a), family)
  {
    var shown := Step(s, a).presented;
    if family !in s.gateway.revoked && a != Revoke(family) {
      assert shown[|s.presented|].consumed && shown[|s.presented|].token.family == family;
    }
  }

  lemma ShownStays(s: System, a: Action, family: nat)
    requires ConsumedWasShown(s, family)
    ensures ConsumedWasShown(Step(s, a), family)
  {
    var i :| 0 <= i < |s.presented| && s.presented[i].consumed && s.presented[i].token.family == family;
    assert Step(s, a).presented[i] == s.presented[i];
  }

  /** A family is revoked only by its gateway's own will, or because a consumed token of it was shown. */
  lemma {:induction false} RevokedOnlyForAReplay(s: System, actions: seq<Action>)
    ensures forall f :: f in Run(s, actions).gateway.revoked ==>
              f in s.gateway.revoked || Revoke(f) in actions || ConsumedWasShown(Run(s, actions), f)
    decreases |actions|
  {
    if actions == [] {
    } else {
      var before, last := actions[..|actions| - 1], actions[|actions| - 1];
      RevokedOnlyForAReplay(s, before);
      forall f | f in Run(s, actions).gateway.revoked
        ensures f in s.gateway.revoked || Revoke(f) in actions || ConsumedWasShown(Run(s, actions), f)
      {
        RevokedInStep(Run(s, before), last, f);
        if f in Run(s, before).gateway.revoked && ConsumedWasShown(Run(s, before), f) {
          ShownStays(Run(s, before), last, f);
        }
      }
    }
  }

  /** Without faults and late requests the program never costs a login its family. */
  lemma NoFamilyIsRevoked(s: System, actions: seq<Action>)
    requires Init(s) && Faultless(s, actions) && NoneLate(actions)
    ensures forall f :: f in Run(s, actions).gateway.revoked ==> f in s.gateway.revoked || Revoke(f) in actions
  {
    RevokedOnlyForAReplay(s, actions);
    ConsumedTokensAreShownOnlyAfterFaults(s, actions);
  }

  /** After a fault, the next refresh of that row shows a consumed token; the whole family is revoked, and the user must log in. */
  lemma NextRefreshAfterALoss(s: System, p: Pid, decision: Decision)
    requires Inv(s) && At(s, p).Inside? && At(s, p).stage.Granting?
    requires At(s, p).stage.row.refreshToken.Some? && At(s, p).stage.row.refreshToken.value.family in s.lost
    ensures var shown := Step(s, Present(p, decision));
            && shown.presented[|s.presented|].consumed && At(s, p).stage.row.refreshToken.value.family in shown.gateway.revoked
            && IsAt(Step(shown, Deliver(p)), p, Failing(LoginRequired))
  {
    assert TokenIsNewest(s, At(s, p).origin, s.disk.rows[At(s, p).origin].refreshToken.value);
  }

  lemma RunSnoc(s: System, actions: seq<Action>, a: Action)
    ensures Run(s, actions + [a]) == Step(Run(s, actions), a)
  {
    assert (actions + [a])[..|actions|] == actions;
  }

  /** Nothing but processes and the lock differs. */
  ghost predicate SameShared(t: System, t': System) {
    && t'.now == t.now && t'.disk.rows == t.disk.rows && t'.gateway == t.gateway
    && t'.adrift == t.adrift && t'.lost == t.lost && t'.presented == t.presented
  }

  ghost predicate OthersStay(t: System, t': System, p: Pid) {
    forall q :: q != p ==> At(t', q) == At(t, q)
  }

  /** A process that can refresh at once gets ready to, ... */
  lemma ReachesGrant(s: System, actions: seq<Action>, p: Pid, o: string) returns (longer: seq<Action>)
    requires var t := Run(s, actions);
             && At(t, p).Idle? && t.disk.writer.None? && o in t.disk.rows
             && t.disk.rows[o].refreshToken.Some? && t.disk.rows[o].expiresAt - EXPIRY_MARGIN_MS <= t.now
    ensures var t, t' := Run(s, actions), Run(s, longer);
            && SameShared(t, t') && OthersStay(t, t', p)
            && At(t', p) == Inside(o, None, Granting(t.disk.rows[o], t.now))
  {
    longer := actions;
    var steps := [Start(p, o, None), Acquire(p), Recheck(p), Discovered(p, None)];
    RunSnoc(s, longer, steps[0]); longer := longer + [steps[0]];
    RunSnoc(s, longer, steps[1]); longer := longer + [steps[1]];
    RunSnoc(s, longer, steps[2]); longer := longer + [steps[2]];
    RunSnoc(s, longer, steps[3]); longer := longer + [steps[3]];
  }

  /** ... and shows the row's token. */
  lemma RefreshAlone(s: System, actions: seq<Action>, p: Pid, o: string, decision: Decision) returns (longer: seq<Action>)
    requires var t := Run(s, actions);
             && At(t, p).Idle? && t.disk.writer.None? && o in t.disk.rows
             && t.disk.rows[o].refreshToken.Some? && t.disk.rows[o].expiresAt - EXPIRY_MARGIN_MS <= t.now
    ensures var t, t', row := Run(s, actions), Run(s, longer), Run(s, actions).disk.rows[o];
            var (gateway, answer, spent) := Exchange(t.gateway, row.refreshToken.value, decision);
            && t'.now == t.now && t'.disk.rows == t.disk.rows && t'.gateway == gateway && t'.adrift == t.adrift && t'.lost == t.lost
            && |t'.presented| == |t.presented| + 1
            && t'.presented[|t.presented|].consumed == Consumed(t.gateway, row.refreshToken.value)
            && At(t', p) == Inside(o, None, Answered(row, t.now, answer, spent)) && OthersStay(t, t', p)
  {
    var ready := ReachesGrant(s, actions, p, o);
    RunSnoc(s, ready, Present(p, decision));
    longer := ready + [Present(p, decision)];
  }

  /** A process whose request fails leaves, and the lock is free. */
  lemma GivesUp(s: System, actions: seq<Action>, p: Pid) returns (longer: seq<Action>)
    requires At(Run(s, actions), p).Inside? && (At(Run(s, actions), p).stage.Granting? || At(Run(s, actions), p).stage.Answered?)
    ensures var t, t' := Run(s, actions), Run(s, longer);
            && t'.now == t.now && t'.disk.rows == t.disk.rows && t'.disk.writer.None? && t'.gateway == t.gateway
            && t'.presented == t.presented && OthersStay(t, t', p)
            && t'.adrift == Abandon(t, At(t, p)) && (!Spent(At(t, p).stage) ==> t'.lost == t.lost)
  {
    RunSnoc(s, actions, Lose(p, Abort));
    longer := actions + [Lose(p, Abort)];
    RunSnoc(s, longer, Rollback(p));
    longer := longer + [Rollback(p)];
  }

  ghost predicate ShowsConsumed(s: System) {
    exists i :: 0 <= i < |s.presented| && s.presented[i].consumed
  }

  /** One expired row, whose refresh token is its family's only one. */
  function OneRow(o: string): System {
    System(Disk(map[o := Row(None, "", Some(RefreshToken(0, 0)), 0)], None, map[]), 0, map[],
           Gateway(map[0 := 0], {}), map[], {}, map[0 := InRow(o)], map[], [])
  }

  const ROTATES := Grants(true, Named, "", 3600)

  /** It does happen: one response that is lost after the gateway rotated. */
  lemma ALostResponseIsReplayed(o: string)
    ensures exists actions :: Init(OneRow(o)) && ShowsConsumed(Run(OneRow(o), actions))
  {
    var s := OneRow(o);
    var first := RefreshAlone(s, [], 1, o, ROTATES);
    var failed := GivesUp(s, first, 1);
    var again := RefreshAlone(s, failed, 2, o, ROTATES);
    assert Run(s, again).presented[1].consumed;
  }

  /** The committed rows after a step: only a refresh's commit, a login and a logout write them. */
  function RowsAfter(s: System, a: Action): map<string, Row> {
    match a
    case CommitNow(p) =>
      if At(s, p).Inside? && At(s, p).stage.Saved? then s.disk.rows[At(s, p).origin := At(s, p).stage.replacement] else s.disk.rows
    case SaveLogin(p) =>
      if At(s, p).Holding? && s.disk.writer.None? then s.disk.rows[At(s, p).origin := At(s, p).row] else s.disk.rows
    case Logout(p, origin) => if At(s, p).Idle? && s.disk.writer.None? then s.disk.rows - {origin} else s.disk.rows
    case _ => s.disk.rows
  }

  lemma RowsAfterStep(s: System, a: Action)
    requires a.CommitNow? && At(s, a.p).Inside? ==>
               var stage := At(s, a.p).stage;
               s.disk.draft == (if stage.Saved? then s.disk.rows[At(s, a.p).origin := stage.replacement] else s.disk.rows)
    ensures Step(s, a).disk.rows == RowsAfter(s, a)
  {
  }

  /** A refresh that fails, crashes or times out leaves the rows as they were. */
  lemma RowsChangeOnly(s: System, a: Action)
    requires Inv(s)
    ensures Step(s, a).disk.rows == RowsAfter(s, a)
  {
    RowsAfterStep(s, a);
  }

  /** The access token a refresh returns is the one in the committed row when it returns. */
  lemma ReturnedTokenIsStored(s: System, a: Action, p: Pid, access: string)
    requires Inv(s) && At(s, p).Inside? && At(Step(s, a), p) == Finished(FromRefresh(access))
    ensures var row := Lookup(Step(s, a).disk.rows, At(s, p).origin);
            row.Some? && row.value.accessToken == access
  {
    RowsChangeOnly(s, a);
  }

  /** How a refusal ends a refresh, whatever the gateway says. */
  lemma RefusalEndsTheRefresh(s: System, p: Pid)
    requires Inv(s) && At(s, p).Inside? && At(s, p).stage.Answered? && At(s, p).stage.answer.Refuses?
    ensures var code, end := At(s, p).stage.answer.code, Step(Step(s, Deliver(p)), Rollback(p));
            && end.disk.rows == s.disk.rows && end.disk.writer.None?
            && At(end, p) == Finished(
                 if code == "invalid_grant" || code == "invalid_client" || code == "unauthorized_client" then LoginRequired
                 else Failed(OAuth(code)))
  {
  }

  /** How a request that fails ends it: an abort is a timeout, anything else is passed on. */
  lemma FailureEndsTheRefresh(s: System, p: Pid, error: Error)
    requires Inv(s) && At(s, p).Inside? && (At(s, p).stage.Discovering? || At(s, p).stage.Granting? || At(s, p).stage.Answered?)
    ensures var failed := if At(s, p).stage.Discovering? then Discovered(p, Some(error)) else Lose(p, error);
            var end := Step(Step(s, failed), Rollback(p));
            && end.disk.rows == s.disk.rows && end.disk.writer.None?
            && At(end, p) == Finished(if error == Abort then TimedOut else Failed(error))
  {
  }

  /** What a process does first under the lock, by the row it re-reads: give up when the budget is spent, return a token with
      more than five minutes to live, ask for a login if there is no refresh token, and refresh otherwise. */
  lemma RecheckDecides(s: System, p: Pid)
    requires Inv(s) && IsAt(s, p, Entered)
    ensures var pc, row := At(s, p), Lookup(s.disk.rows, At(s, p).origin);
            At(Step(s, Recheck(p)), p) == Inside(pc.origin, pc.deadline,
              if pc.deadline.Some? && pc.deadline.value <= s.now then Failing(TimedOut)
              else if row.None? then Failing(LoginRequired)
              else if row.value.expiresAt - 300000 > s.now then Leaving(row.value.accessToken)
              else if row.value.refreshToken.None? then Failing(LoginRequired)
              else Discovering(row.value, s.now))
  {
  }

  /** Whenever a refresh commits: the granted access token under the client it was granted to, with the refresh token the
      response named, or the old one if it said nothing. */
  lemma CommitStoresTheGrant(s: System, p: Pid)
    requires Inv(s) && At(s, p).Inside? && At(s, p).stage.Saved?
    ensures var stage, row := At(s, p).stage, Lookup(Step(s, CommitNow(p)).disk.rows, At(s, p).origin);
            && row.Some? && stage.answer.Tokens? && row.value.clientId == stage.row.clientId && row.value.accessToken == stage.answer.access
            && row.value.refreshToken == (match stage.answer.refresh case Some(refresh) => refresh case None => stage.row.refreshToken)
            && (Names(stage.answer.refresh) && stage.row.refreshToken.value.family !in s.lost ==>
                  HoldsNewest(s.gateway, row, stage.row.refreshToken.value.family))
  {
    RowsChangeOnly(s, CommitNow(p));
    assert TokenIsNewest(s, At(s, p).origin, At(s, p).stage.row.refreshToken.value);
  }

  /** From the answer to the commit. */
  function Stored(s: System, p: Pid, ms: nat): System {
    Step(Step(Step(s, Tick(ms)), Deliver(p)), CommitNow(p))
  }

  lemma AnswerIsStored(s: System, p: Pid, ms: nat)
    requires Inv(s) && At(s, p).Inside? && At(s, p).stage.Answered? && At(s, p).stage.answer.Tokens?
    ensures var pc, answer, end := At(s, p), At(s, p).stage.answer, Stored(s, p, ms);
            var refresh := match answer.refresh case Some(refresh) => refresh case None => pc.stage.row.refreshToken;
            && end.disk.rows == s.disk.rows[pc.origin := Row(pc.stage.row.clientId, answer.access, refresh, s.now + ms + 1000 * answer.lifetime)]
            && end.disk.writer.None? && end.gateway == s.gateway && end.adrift == s.adrift && end.presented == s.presented
            && At(end, p) == Finished(FromRefresh(answer.access))
            && end.lost == s.lost + (if pc.stage.spent && !Names(answer.refresh) then {pc.stage.row.refreshToken.value.family} else {})
  {
    assert TokenIsNewest(s, At(s, p).origin, At(s, p).stage.row.refreshToken.value);
  }

  lemma LiveTokenIsAnswered(s: System, p: Pid, decision: Decision)
    requires Inv(s) && At(s, p).Inside? && At(s, p).stage.Granting? && decision.Grants?
    requires var t := At(s, p).stage.row.refreshToken; t.Some? && t.value.family !in s.lost + s.gateway.revoked
    ensures var pc, s' := At(s, p), Step(s, Present(p, decision));
            var t := pc.stage.row.refreshToken.value;
            var current := if decision.rotates then RefreshToken(t.family, t.generation + 1) else t;
            var refresh := match decision.handed case Named => Some(Some(current)) case Omitted => None case Blank => Some(None);
            var answer := Tokens(decision.access, refresh, decision.lifetime);
            && At(s', p) == Inside(pc.origin, pc.deadline, Answered(pc.stage.row, pc.stage.at, answer, decision.rotates))
            && s'.disk == s.disk && s'.lost == s.lost && s'.now == s.now
  {
    assert TokenIsNewest(s, At(s, p).origin, At(s, p).stage.row.refreshToken.value);
  }

  /** A refresh from the request to the commit: what the gateway granted is stored under the client it was granted to and
      returned, with the refresh token the response named, or the old one if it said nothing; and the family has lost a
      token if the gateway rotated without saying so. */
  lemma RefreshStoresTheGrant(s: System, p: Pid, decision: Decision, ms: nat)
    requires Inv(s) && At(s, p).Inside? && At(s, p).stage.Granting? && decision.Grants?
    requires var t := At(s, p).stage.row.refreshToken; t.Some? && t.value.family !in s.lost + s.gateway.revoked
    ensures var origin, row := At(s, p).origin, At(s, p).stage.row;
            var t := row.refreshToken.value;
            var current := if decision.rotates then RefreshToken(t.family, t.generation + 1) else t;
            var refresh := match decision.handed case Named => Some(current) case Omitted => row.refreshToken case Blank => None;
            var end := Stored(Step(s, Present(p, decision)), p, ms);
            && Lookup(end.disk.rows, origin) == Some(Row(row.clientId, decision.access, refresh, s.now + ms + 1000 * decision.lifetime))
            && At(end, p) == Finished(FromRefresh(decision.access))
            && (t.family in end.lost <==> decision.rotates && !decision.handed.Named?)
  {
    PresentKeepsInv(s, p, decision);
    LiveTokenIsAnswered(s, p, decision);
    AnswerIsStored(Step(s, Present(p, decision)), p, ms);
  }

  lemma Commits(s: System, actions: seq<Action>, p: Pid) returns (longer: seq<Action>)
    requires Inv(s) && var pc := At(Run(s, actions), p); pc.Inside? && pc.stage.Answered? && pc.stage.answer.Tokens?
    ensures Run(s, longer) == Stored(Run(s, actions), p, 0)
    ensures var t, pc, t' := Run(s, actions), At(Run(s, actions), p), Run(s, longer);
            && t'.gateway == t.gateway && t'.adrift == t.adrift
            && (Names(pc.stage.answer.refresh) ==>
                  t'.lost == t.lost && pc.origin in t'.disk.rows && t'.disk.rows[pc.origin].refreshToken == pc.stage.answer.refresh.value)
  {
    RunKeepsInv(s, actions);
    AnswerIsStored(Run(s, actions), p, 0);
    RunSnoc(s, actions, Tick(0));
    RunSnoc(s, actions + [Tick(0)], Deliver(p));
    RunSnoc(s, actions + [Tick(0)] + [Deliver(p)], CommitNow(p));
    longer := actions + [Tick(0)] + [Deliver(p)] + [CommitNow(p)];
    assert Run(s, actions).lost + {} == Run(s, actions).lost;
  }

  lemma RevokesLate(s: System, actions: seq<Action>, o: string, token: RefreshToken) returns (longer: seq<Action>)
    requires token in InFlight(Run(s, actions), o) && Consumed(Run(s, actions).gateway, token)
    ensures var t, t' := Run(s, actions), Run(s, longer);
            && t'.disk == t.disk && t'.lost == t.lost && t'.gateway.newest == t.gateway.newest && token.family in t'.gateway.revoked
  {
    longer := actions + [ArriveLate(o, token, Declines(""))];
    RunSnoc(s, actions, ArriveLate(o, token, Declines("")));
  }

  /** In a run without faults, a family can still be revoked: a first request is given up and arrives when a second process
      has refreshed. The row holds a token that is not consumed, and the next refresh is refused all the same. */
  lemma ALateRequestRevokesTheFamily(o: string)
    ensures exists actions ::
              && Init(OneRow(o)) && Faultless(OneRow(o), actions)
              && HoldsNewest(Run(OneRow(o), actions).gateway, Lookup(Run(OneRow(o), actions).disk.rows, o), 0)
              && 0 in Run(OneRow(o), actions).gateway.revoked
  {
    var s := OneRow(o);
    InitInv(s);
    var ready := ReachesGrant(s, [], 1, o);
    var failed := GivesUp(s, ready, 1);
    var second := RefreshAlone(s, failed, 2, o, ROTATES);
    var stored := Commits(s, second, 2);
    var late := RevokesLate(s, stored, o, RefreshToken(0, 0));
    ConsumedTokensAreShownOnlyAfterFaults(s, late);
  }

  /** However a process leaves, the lock is free again. */
  lemma LeavingFreesTheLock(s: System, a: Action, p: Pid)
    requires Inv(s) && At(s, p).Inside? && !At(Step(s, a), p).Inside?
    ensures Step(s, a).disk.writer.None?
  {
    StepKeepsInv(s, a);
  }

  /** Two processes are never inside at once. */
  lemma AtMostOneInside(s: System, actions: seq<Action>, p: Pid, q: Pid)
    requires Init(s) && At(Run(s, actions), p).Inside? && At(Run(s, actions), q).Inside?
    ensures p == q
  {
    InitInv(s);
    RunKeepsInv(s, actions);
  }

  /** A new login mends an origin whose family lost a token. */
  lemma LoginMends(s: System, actions: seq<Action>, p: Pid)
    requires Init(s) && At(Run(s, actions), p).Holding? && Run(s, actions).disk.writer.None?
    ensures var now := Run(s, actions);
            var origin, row, next := At(now, p).origin, At(now, p).row, Step(now, SaveLogin(p));
            && Lookup(next.disk.rows, origin) == Some(row)
            && (row.refreshToken.Some? ==> row.refreshToken.value.family !in next.lost && !Consumed(next.gateway, row.refreshToken.value))
  {
    InitInv(s);
    RunKeepsInv(s, actions);
  }

  // ---- One refresh for any number of waiters ----

  function ShownFor(presented: seq<Presentation>, origin: string): nat {
    if presented == [] then 0
    else ShownFor(presented[..|presented| - 1], origin) + (if presented[|presented| - 1].origin == origin then 1 else 0)
  }

  /** A login or a logout writes the origin's row. */
  predicate Rewrites(s: System, a: Action, origin: string) {
    match a
    case SaveLogin(p) => At(s, p).Holding? && At(s, p).origin == origin
    case Logout(_, o) => o == origin
    case _ => false
  }

  predicate Undisturbed(s: System, actions: seq<Action>, origin: string) {
    actions != [] ==>
      var before := actions[..|actions| - 1];
      Undisturbed(s, before, origin) && !Rewrites(Run(s, before), actions[|actions| - 1], origin)
  }

  lemma ClockIsMonotone(s: System, a: Action)
    ensures s.now <= Step(s, a).now
  {
  }

  /** While the stored token is fresh no process is refreshing the origin. */
  ghost predicate NoneRefreshes(s: System, origin: string) {
    forall p :: At(s, p).Inside? && At(s, p).origin == origin ==> !At(s, p).stage.Granting? && !At(s, p).stage.Saved?
  }

  lemma FreshMeansNone(s: System, origin: string)
    requires Inv(s) && origin in s.stored && s.now < s.stored[origin] - EXPIRY_MARGIN_MS
    ensures NoneRefreshes(s, origin)
  {
  }

  lemma StoredStays(s: System, a: Action, origin: string)
    requires NoneRefreshes(s, origin) && origin in s.stored && !Rewrites(s, a, origin)
    ensures origin in Step(s, a).stored && Step(s, a).stored[origin] == s.stored[origin]
  {
  }

  /** How many requests for the origin have arrived or still may. */
  function Requests(s: System, origin: string): nat {
    ShownFor(s.presented, origin) + |InFlight(s, origin)|
  }

  lemma LateWasAdrift(s: System, o: string, t: RefreshToken, decision: Decision, origin: string)
    requires t in InFlight(s, o)
    ensures var late := DoArriveLate(s, o, t, decision);
            Requests(late, origin) == Requests(s, origin) && ShownFor(late.presented, origin) >= ShownFor(s.presented, origin)
  {
    var shown := DoArriveLate(s, o, t, decision).presented;
    assert shown[..|shown| - 1] == s.presented;
  }

  lemma NothingShown(s: System, a: Action, origin: string)
    requires NoneRefreshes(s, origin) && !a.ArriveLate?
    ensures ShownFor(Step(s, a).presented, origin) == ShownFor(s.presented, origin)
  {
    var shown := Step(s, a).presented;
    assert shown != s.presented ==> shown[..|shown| - 1] == s.presented;
  }

  predicate Leaves(a: Action) {
    a.Lose? || a.Crash?
  }

  lemma AdriftStays(s: System, a: Action)
    requires !a.ArriveLate? && !Leaves(a)
    ensures Step(s, a).adrift == s.adrift
  {
  }

  lemma AbandonedElsewhere(s: System, pc: Pc, origin: string)
    requires pc.Inside? && (pc.stage.Granting? ==> pc.origin != origin)
    ensures InFlight(s.(adrift := Abandon(s, pc)), origin) == InFlight(s, origin)
  {
  }

  lemma LeavingAbandons(s: System, a: Action)
    requires Leaves(a)
    ensures Step(s, a).adrift == s.adrift || (At(s, a.p).Inside? && Step(s, a).adrift == Abandon(s, At(s, a.p)))
  {
  }

  lemma NothingAbandoned(s: System, a: Action, origin: string)
    requires NoneRefreshes(s, origin) && Leaves(a)
    ensures InFlight(Step(s, a), origin) == InFlight(s, origin)
  {
    LeavingAbandons(s, a);
    if At(s, a.p).Inside? { AbandonedElsewhere(s, At(s, a.p), origin); }
  }

  /** What arrives was adrift before. */
  lemma OnlyLateArrive(s: System, a: Action, origin: string)
    requires NoneRefreshes(s, origin)
    ensures Requests(Step(s, a), origin) == Requests(s, origin)
    ensures ShownFor(Step(s, a).presented, origin) >= ShownFor(s.presented, origin)
  {
    if !a.ArriveLate? {
      NothingShown(s, a, origin);
      if Leaves(a) { NothingAbandoned(s, a, origin); } else { AdriftStays(s, a); }
    } else if a.token in InFlight(s, a.origin) {
      LateWasAdrift(s, a.origin, a.token, a.decision, origin);
    }
  }

  /** Once a refresh has stored the expiry e, and until the clock reads e less the margin, no process shows a refresh token
      for the origin, however many resolve it, unless a login or a logout rewrites the row: only requests that were given up
      before arrive, each at most once. */
  lemma {:induction false} OneRefreshServesAll(s: System, actions: seq<Action>, origin: string)
    requires Inv(s) && origin in s.stored && Undisturbed(s, actions, origin)
    requires Run(s, actions).now < s.stored[origin] - EXPIRY_MARGIN_MS
    ensures var end := Run(s, actions);
            && origin in end.stored && end.stored[origin] == s.stored[origin]
            && Requests(end, origin) == Requests(s, origin)
            && (InFlight(s, origin) == multiset{} ==> ShownFor(end.presented, origin) == ShownFor(s.presented, origin))
            && ShownFor(end.presented, origin) >= ShownFor(s.presented, origin)
    decreases |actions|
  {
    if actions == [] {
    } else {
      var before, last := actions[..|actions| - 1], actions[|actions| - 1];
      ClockIsMonotone(Run(s, before), last);
      OneRefreshServesAll(s, before, origin);
      RunKeepsInv(s, before);
      FreshMeansNone(Run(s, before), origin);
      StoredStays(Run(s, before), last, origin);
      OnlyLateArrive(Run(s, before), last, origin);
    }
  }

  /** Meanwhile every waiter that gets the lock in time leaves with the stored token. */
  lemma WaitersTakeTheStoredToken(s: System, p: Pid)
    requires Inv(s) && IsAt(s, p, Entered) && At(s, p).origin in s.stored && !Overdue(At(s, p).deadline, s.now)
    requires s.now < s.stored[At(s, p).origin] - EXPIRY_MARGIN_MS
    ensures At(Step(Step(s, Recheck(p)), CommitNow(p)), p) == Finished(FromRefresh(s.disk.rows[At(s, p).origin].accessToken))
  {
  }
}

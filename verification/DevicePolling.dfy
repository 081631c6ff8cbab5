/** Device login polling (section 3.5 of RFC 8628) and token documents, as in src/client/auth/oauthClient.ts.
    Intervals and lifetimes are whole seconds, the clock counts milliseconds. */
module DevicePolling {
  import opened Common

  /** How a request ends: no response, or one whose body may not be JSON. */
  datatype Reply = Unreachable | Accepted(body: Option<Json>) | Refused(body: Option<Json>)

  datatype TokenSet = TokenSet(accessToken: string, refreshToken: Option<string>, expiresAt: int)

  datatype Failure = OAuth(code: string) | Unreadable | MissingAccessToken | NoResponse

  datatype Outcome = Approved(tokens: TokenSet) | Failed(error: Failure)

  // ---- Documents ----

  /** readOAuthError: the error code a refusal carries. */
  function OAuthCode(body: Option<Json>): string {
    match body
    case Some(Obj(fields)) =>
      var error := Field(fields, "error");
      if error.Some? && error.value.Str? then error.value.s else "unknown_error"
    case _ => "unknown_error"
  }

  predicate NonEmptyString(field: Option<Json>) {
    field.Some? && field.value.Str? && field.value.s != ""
  }

  /** parseTokenResponse on the body of a success. Member access on null throws. */
  function ParseTokenResponse(body: Option<Json>, now: int): Outcome {
    if body.None? || body.value.Null? then Failed(Unreadable)
    else
      var fields := if body.value.Obj? then body.value.fields else map[];
      var access, refresh, expires := Field(fields, "access_token"), Field(fields, "refresh_token"), Field(fields, "expires_in");
      if !NonEmptyString(access) then Failed(MissingAccessToken)
      else
        Approved(TokenSet(
          access.value.s,
          if refresh.Some? && refresh.value.Str? then Some(refresh.value.s) else None,
          now + (if expires.Some? && expires.value.Num? then expires.value.n else 0) * 1000))
  }

  /** A server's answer for a token set; the refresh token and the lifetime in seconds may be absent. */
  function PrintTokenResponse(access: string, refresh: Option<string>, lifetime: Option<int>): Json {
    var required := map["access_token" := Str(access)];
    var timed := if lifetime.Some? then required["expires_in" := Num(lifetime.value)] else required;
    Obj(if refresh.Some? then timed["refresh_token" := Str(refresh.value)] else timed)
  }

  /** What the tokens of an accepted response are, field by field; a refresh token or a lifetime of another type counts as absent. */
  lemma TokensAreTheFields(body: Option<Json>, now: int)
    ensures ParseTokenResponse(body, now).Approved? ==>
              && body.Some? && body.value.Obj?
              && var f, t := body.value.fields, ParseTokenResponse(body, now).tokens;
                 && t.accessToken != "" && Field(f, "access_token") == Some(Str(t.accessToken))
                 && (forall s :: t.refreshToken == Some(s) <==> Field(f, "refresh_token") == Some(Str(s)))
                 && (forall n :: Field(f, "expires_in") == Some(Num(n)) ==> t.expiresAt == now + 1000 * n)
                 && ((forall n :: Field(f, "expires_in") != Some(Num(n))) ==> t.expiresAt == now)
  {
    if ParseTokenResponse(body, now).Approved? {
      var expires := Field(if body.value.Obj? then body.value.fields else map[], "expires_in");
      if expires.Some? && expires.value.Num? { assert expires == Some(Num(expires.value.n)); }
    }
  }

  /** A document is accepted exactly when it has a non-empty access token, and what a server printed is read back;
      without a lifetime the token has expired already. */
  lemma TokenResponseReadsBack(body: Option<Json>, now: int, access: string, refresh: Option<string>, lifetime: Option<int>)
    ensures ParseTokenResponse(body, now).Approved? <==>
              body.Some? && body.value.Obj? && NonEmptyString(Field(body.value.fields, "access_token"))
    ensures !ParseTokenResponse(body, now).Approved? ==>
              ParseTokenResponse(body, now) == Failed(if body in {None, Some(Null)} then Unreadable else MissingAccessToken)
    ensures access != "" ==>
              ParseTokenResponse(Some(PrintTokenResponse(access, refresh, lifetime)), now)
              == Approved(TokenSet(access, refresh, now + (if lifetime.Some? then 1000 * lifetime.value else 0)))
  {
    var o := PrintTokenResponse(access, refresh, lifetime).fields;
    assert Field(o, "expires_in") == if lifetime.Some? then Some(Num(lifetime.value)) else None;
    assert Field(o, "refresh_token") == if refresh.Some? then Some(Str(refresh.value)) else None;
  }

  // ---- Polling ----

  /** One turn of the outside world: how much longer than asked the sleep lasts, how long the request takes, its reply. */
  datatype Turn = Turn(oversleep: nat, latency: nat, reply: Reply)

  /** A poll sent: the wait before it, when it was sent and answered, and the reply. */
  datatype Poll = Poll(waitSec: int, sentAt: int, answeredAt: int, reply: Reply)

  /** `outcome` is None while the login is still polling when the world's turns are used up. */
  datatype Run = Run(polls: seq<Poll>, outcome: Option<Outcome>)

  predicate SlowDown(reply: Reply) {
    reply.Refused? && OAuthCode(reply.body) == "slow_down"
  }

  predicate KeepPolling(reply: Reply) {
    reply.Refused? && OAuthCode(reply.body) in {"authorization_pending", "slow_down"}
  }

  function Judged(reply: Reply, answeredAt: int): Outcome
    requires !KeepPolling(reply)
  {
    match reply
    case Unreachable => Failed(NoResponse)
    case Accepted(body) => ParseTokenResponse(body, answeredAt)
    case Refused(body) => Failed(OAuth(OAuthCode(body)))
  }

  /** The interval after a reply. */
  function Next(intervalSec: int, reply: Reply): int {
    if SlowDown(reply) then intervalSec + 5 else intervalSec
  }

  const EXPIRED := Failed(OAuth("expired_token"))

  /** The sleep before a poll: it does not end early, and takes at least `least` milliseconds. That is 1 for the default
      sleep, since setTimeout raises a delay below 1 to 1; a sleep that is passed in may take none at all. */
  function Woken(least: nat, now: int, intervalSec: int, oversleep: nat): int {
    now + Max(least, intervalSec * 1000) + oversleep
  }

  function After(polls: seq<Poll>, rest: Run): Run {
    Run(polls + rest.polls, rest.outcome)
  }

  lemma AfterOneMore(polls: seq<Poll>, poll: Poll, rest: Run)
    ensures After(polls, After([poll], rest)) == After(polls + [poll], rest)
  {
  }

  /** What a login does from `now` on. */
  function Played(least: nat, intervalSec: int, deadline: int, now: int, turns: seq<Turn>): Run
    decreases turns
  {
    if turns == [] then Run([], None) else
    var sentAt := Woken(least, now, intervalSec, turns[0].oversleep);
    if sentAt > deadline then Run([], Some(EXPIRED)) else
    var poll := Poll(intervalSec, sentAt, sentAt + turns[0].latency, turns[0].reply);
    if !KeepPolling(poll.reply) then Run([poll], Some(Judged(poll.reply, poll.answeredAt))) else
    After([poll], Played(least, Next(intervalSec, poll.reply), deadline, poll.answeredAt, turns[1..]))
  }

  /** pollDeviceToken. */
  function Login(least: nat, interval: int, expiresIn: int, start: int, turns: seq<Turn>): Run {
    Played(least, interval, start + expiresIn * 1000, start, turns)
  }

  method PollDeviceToken(least: nat, interval: int, expiresIn: int, start: int, turns: seq<Turn>) returns (run: Run)
    ensures run == Login(least, interval, expiresIn, start, turns)
  {
    var intervalSec, now := interval, start;
    var deadline := now + expiresIn * 1000;
    var polls, rest := [], turns;
    while rest != []
      invariant Played(least, interval, deadline, start, turns) == After(polls, Played(least, intervalSec, deadline, now, rest))
      decreases rest
    {
      var turn := rest[0];
      rest := rest[1..];
      now := Woken(least, now, intervalSec, turn.oversleep);
      if now > deadline {
        return Run(polls, Some(EXPIRED));
      }
      var poll := Poll(intervalSec, now, now + turn.latency, turn.reply);
      polls := polls + [poll];
      now := poll.answeredAt;
      if !KeepPolling(turn.reply) {
        return Run(polls, Some(Judged(turn.reply, now)));
      }
      intervalSec := Next(intervalSec, turn.reply);
      AfterOneMore(polls[..|polls| - 1], poll, Played(least, intervalSec, deadline, now, rest));
    }
    run := Run(polls, None);
  }

  // ---- What every login does ----

  function SlowDowns(polls: seq<Poll>): nat {
    if polls == [] then 0 else (if SlowDown(polls[0].reply) then 1 else 0) + SlowDowns(polls[1..])
  }

  /** Each poll waits for the interval of its time and is sent by the deadline. */
  ghost predicate Timely(least: nat, polls: seq<Poll>, intervalSec: int, deadline: int, now: int) {
    polls != [] ==>
      && polls[0].waitSec == intervalSec
      && now + Max(least, 1000 * intervalSec) <= polls[0].sentAt <= deadline && polls[0].sentAt <= polls[0].answeredAt
      && Timely(least, polls[1..], Next(intervalSec, polls[0].reply), deadline, polls[0].answeredAt)
  }

  lemma {:induction false} PlayedIsTimely(least: nat, intervalSec: int, deadline: int, now: int, turns: seq<Turn>)
    ensures Timely(least, Played(least, intervalSec, deadline, now, turns).polls, intervalSec, deadline, now)
    decreases turns
  {
    var polls := Played(least, intervalSec, deadline, now, turns).polls;
    if polls == [] || !KeepPolling(polls[0].reply) {
    } else {
      var next := Next(intervalSec, polls[0].reply);
      PlayedIsTimely(least, next, deadline, polls[0].answeredAt, turns[1..]);
      assert polls[1..] == Played(least, next, deadline, polls[0].answeredAt, turns[1..]).polls;
    }
  }

  lemma {:induction false} TimelyWait(least: nat, polls: seq<Poll>, intervalSec: int, deadline: int, now: int, i: nat)
    requires Timely(least, polls, intervalSec, deadline, now) && i < |polls|
    ensures polls[i].waitSec == intervalSec + 5 * SlowDowns(polls[..i])
    ensures (if i == 0 then now else polls[i - 1].answeredAt) + Max(least, 1000 * polls[i].waitSec) <= polls[i].sentAt <= deadline
    ensures polls[i].sentAt <= polls[i].answeredAt
    decreases i
  {
    if i == 0 {
    } else {
      TimelyWait(least, polls[1..], Next(intervalSec, polls[0].reply), deadline, polls[0].answeredAt, i - 1);
      assert polls[..i][1..] == polls[1..][..i - 1];
    }
  }

  /** Poll i waits interval + 5·(slow_downs so far) seconds after the answer before it, and is not sent after the deadline. */
  lemma WaitBeforePoll(least: nat, interval: int, expiresIn: int, start: int, turns: seq<Turn>, i: nat)
    requires i < |Login(least, interval, expiresIn, start, turns).polls|
    ensures var polls := Login(least, interval, expiresIn, start, turns).polls;
            && polls[i].waitSec == interval + 5 * SlowDowns(polls[..i])
            && (if i == 0 then start else polls[i - 1].answeredAt) + Max(least, 1000 * polls[i].waitSec) <= polls[i].sentAt
            && polls[i].sentAt <= start + 1000 * expiresIn
  {
    PlayedIsTimely(least, interval, start + expiresIn * 1000, start, turns);
    TimelyWait(least, Login(least, interval, expiresIn, start, turns).polls, interval, start + expiresIn * 1000, start, i);
  }

  /** The login goes on exactly after authorization_pending and slow_down; what ends it decides the outcome. */
  ghost predicate EndsAsAnswered(run: Run, turns: seq<Turn>) {
    var last := |run.polls| - 1;
    && |run.polls| <= |turns|
    && (forall i :: 0 <= i < last ==> KeepPolling(run.polls[i].reply))
    && match run.outcome
       case None => |run.polls| == |turns| && (run.polls != [] ==> KeepPolling(run.polls[last].reply))
       case Some(outcome) =>
         if run.polls == [] || KeepPolling(run.polls[last].reply) then outcome == EXPIRED && |run.polls| < |turns|
         else outcome == Judged(run.polls[last].reply, run.polls[last].answeredAt)
  }

  lemma {:induction false} PlayedEndsAsAnswered(least: nat, intervalSec: int, deadline: int, now: int, turns: seq<Turn>)
    ensures EndsAsAnswered(Played(least, intervalSec, deadline, now, turns), turns)
    decreases turns
  {
    var run := Played(least, intervalSec, deadline, now, turns);
    if run.polls == [] || !KeepPolling(run.polls[0].reply) {
    } else {
      var rest := Played(least, Next(intervalSec, run.polls[0].reply), deadline, run.polls[0].answeredAt, turns[1..]);
      PlayedEndsAsAnswered(least, Next(intervalSec, run.polls[0].reply), deadline, run.polls[0].answeredAt, turns[1..]);
      assert run == After([run.polls[0]], rest);
    }
  }

  // ---- In the words of the answers ----

  /** A refusal with that OAuth error code. */
  predicate Says(reply: Reply, code: string) {
    && reply.Refused? && reply.body.Some? && reply.body.value.Obj?
    && "error" in reply.body.value.fields && reply.body.value.fields["error"] == Str(code)
  }

  predicate GoesOn(reply: Reply) {
    Says(reply, "authorization_pending") || Says(reply, "slow_down")
  }

  /** What a reply that ends the login makes of it. */
  ghost predicate EndedBy(outcome: Outcome, poll: Poll) {
    match poll.reply
    case Unreachable => outcome == Failed(NoResponse)
    case Accepted(body) => outcome == ParseTokenResponse(body, poll.answeredAt)
    case Refused(_) =>
      && (forall code :: Says(poll.reply, code) ==> outcome == Failed(OAuth(code)))
      && ((forall code :: !Says(poll.reply, code)) ==> outcome == Failed(OAuth("unknown_error")))
  }

  /** Poll i is what turn i makes of it: sent when its wait is over, answered as the turn says. */
  ghost predicate PollOfTurn(polls: seq<Poll>, i: nat, least: nat, interval: int, start: int, turns: seq<Turn>)
    requires i < |polls| <= |turns|
  {
    && polls[i].waitSec == (if i == 0 then interval else polls[i - 1].waitSec + if Says(polls[i - 1].reply, "slow_down") then 5 else 0)
    && polls[i].sentAt == (if i == 0 then start else polls[i - 1].answeredAt) + Max(least, 1000 * polls[i].waitSec) + turns[i].oversleep
    && polls[i].answeredAt == polls[i].sentAt + turns[i].latency && polls[i].reply == turns[i].reply
  }

  /** ... and by the deadline, and the login goes on after it unless it is the last. */
  ghost predicate StepAsTold(polls: seq<Poll>, i: nat, least: nat, interval: int, deadline: int, start: int, turns: seq<Turn>)
    requires i < |polls| <= |turns|
  {
    && PollOfTurn(polls, i, least, interval, start, turns) && polls[i].sentAt <= deadline
    && (i < |polls| - 1 ==> GoesOn(polls[i].reply))
  }

  /** When the wait after the polls made is over. */
  function NextSend(polls: seq<Poll>, least: nat, interval: int, start: int, oversleep: nat): int {
    if polls == [] then start + Max(least, 1000 * interval) + oversleep else
    var last := polls[|polls| - 1];
    last.answeredAt + Max(least, 1000 * (last.waitSec + if Says(last.reply, "slow_down") then 5 else 0)) + oversleep
  }

  /** It ends as the last reply says; if that lets it go on, it is still polling when there is no further turn, and otherwise
      the wait was over only after the deadline. */
  ghost predicate EndsAsTold(run: Run, least: nat, interval: int, deadline: int, start: int, turns: seq<Turn>)
    requires |run.polls| <= |turns|
  {
    var n := |run.polls|;
    if n > 0 && !GoesOn(run.polls[n - 1].reply) then run.outcome.Some? && EndedBy(run.outcome.value, run.polls[n - 1])
    else if n == |turns| then run.outcome.None?
    else
      && run.outcome == Some(Failed(OAuth("expired_token")))
      && NextSend(run.polls, least, interval, start, turns[n].oversleep) > deadline
  }

  /** The whole login in the words of the server: it goes on exactly after authorization_pending and slow_down, 5 seconds
      slower after the latter; any other answer ends it; so does a wait that is over only after the deadline. */
  ghost predicate Told(run: Run, least: nat, interval: int, deadline: int, start: int, turns: seq<Turn>) {
    && |run.polls| <= |turns|
    && (forall i :: 0 <= i < |run.polls| ==> StepAsTold(run.polls, i, least, interval, deadline, start, turns))
    && EndsAsTold(run, least, interval, deadline, start, turns)
  }

  lemma RefusalSays(reply: Reply)
    requires reply.Refused?
    ensures forall code :: Says(reply, code) ==> OAuthCode(reply.body) == code
    ensures (forall code :: !Says(reply, code)) ==> OAuthCode(reply.body) == "unknown_error"
    ensures KeepPolling(reply) <==> GoesOn(reply)
    ensures SlowDown(reply) <==> Says(reply, "slow_down")
  {
    if reply.body.Some? && reply.body.value.Obj? {
      var error := Field(reply.body.value.fields, "error");
      if error.Some? && error.value.Str? { assert Says(reply, error.value.s); }
    }
  }

  lemma {:induction false} PlayedAsTold(least: nat, interval: int, deadline: int, start: int, turns: seq<Turn>)
    ensures Told(Played(least, interval, deadline, start, turns), least, interval, deadline, start, turns)
    decreases turns
  {
    var run := Played(least, interval, deadline, start, turns);
    if run.polls == [] {
    } else {
      var poll := run.polls[0];
      if poll.reply.Refused? { RefusalSays(poll.reply); }
      if KeepPolling(poll.reply) {
        var next := Next(interval, poll.reply);
        PlayedAsTold(least, next, deadline, poll.answeredAt, turns[1..]);
        ToldAfter(poll, Played(least, next, deadline, poll.answeredAt, turns[1..]), least, interval, deadline, start, turns);
      }
    }
  }

  lemma StepShifts(poll: Poll, polls: seq<Poll>, i: nat, least: nat, interval: int, deadline: int, start: int, turns: seq<Turn>)
    requires i < |polls| < |turns|
    requires var next := interval + if Says(poll.reply, "slow_down") then 5 else 0;
             StepAsTold(polls, i, least, next, deadline, poll.answeredAt, turns[1..])
    requires poll.waitSec == interval
    ensures StepAsTold([poll] + polls, i + 1, least, interval, deadline, start, turns)
  {
  }

  lemma EndShifts(poll: Poll, rest: Run, least: nat, interval: int, deadline: int, start: int, turns: seq<Turn>)
    requires |rest.polls| < |turns| && GoesOn(poll.reply) && poll.waitSec == interval
    requires var next := interval + if Says(poll.reply, "slow_down") then 5 else 0;
             EndsAsTold(rest, least, next, deadline, poll.answeredAt, turns[1..])
    ensures EndsAsTold(After([poll], rest), least, interval, deadline, start, turns)
  {
    var polls := [poll] + rest.polls;
    assert polls[|polls| - 1] == if rest.polls == [] then poll else rest.polls[|rest.polls| - 1];
  }

  lemma ToldAfter(poll: Poll, rest: Run, least: nat, interval: int, deadline: int, start: int, turns: seq<Turn>)
    requires turns != [] && GoesOn(poll.reply) && poll.sentAt <= deadline
    requires PollOfTurn([poll], 0, least, interval, start, turns)
    requires Told(rest, least, interval + (if Says(poll.reply, "slow_down") then 5 else 0), deadline, poll.answeredAt, turns[1..])
    ensures Told(After([poll], rest), least, interval, deadline, start, turns)
  {
    var polls := [poll] + rest.polls;
    forall i | 0 <= i < |polls| ensures StepAsTold(polls, i, least, interval, deadline, start, turns) {
      if i > 0 { StepShifts(poll, rest.polls, i - 1, least, interval, deadline, start, turns); }
    }
    EndShifts(poll, rest, least, interval, deadline, start, turns);
  }

  /** pollDeviceToken, told by what the server says. */
  lemma LoginAsTold(least: nat, interval: int, expiresIn: int, start: int, turns: seq<Turn>)
    ensures Told(Login(least, interval, expiresIn, start, turns), least, interval, start + 1000 * expiresIn, start, turns)
  {
    PlayedAsTold(least, interval, start + expiresIn * 1000, start, turns);
  }

  function TotalWait(polls: seq<Poll>): int {
    if polls == [] then 0 else polls[0].waitSec + TotalWait(polls[1..])
  }

  /** All the waits fit before the deadline. */
  lemma {:induction false} WaitsFit(least: nat, polls: seq<Poll>, intervalSec: int, deadline: int, now: int)
    requires Timely(least, polls, intervalSec, deadline, now) && intervalSec >= 0 && polls != []
    ensures 1000 * TotalWait(polls) <= deadline - now
    ensures |polls| * intervalSec <= TotalWait(polls)
    decreases |polls|
  {
    var rest, next := polls[1..], Next(intervalSec, polls[0].reply);
    if rest == [] {
    } else {
      WaitsFit(least, rest, next, deadline, polls[0].answeredAt);
      assert |rest| * next >= |rest| * intervalSec;
    }
  }

  lemma OneMoreSlowDown(k: nat, i: int)
    ensures 2 * (k - 1) * (i + 5) + 5 * (k - 1) * (k - 2) + 2 * i == 2 * k * i + 5 * k * (k - 1)
  {
  }

  /** A server that keeps answering slow_down: k polls cost k·I + 5·k·(k−1)/2 seconds. */
  lemma {:induction false} SlowDownWaits(least: nat, polls: seq<Poll>, intervalSec: int, deadline: int, now: int)
    requires Timely(least, polls, intervalSec, deadline, now)
    requires forall i :: 0 <= i < |polls| - 1 ==> SlowDown(polls[i].reply)
    ensures 2 * TotalWait(polls) == 2 * |polls| * intervalSec + 5 * |polls| * (|polls| - 1)
    decreases |polls|
  {
    if polls == [] {
    } else if |polls| == 1 {
      assert polls[1..] == [];
    } else {
      assert SlowDown(polls[0].reply);
      SlowDownWaits(least, polls[1..], intervalSec + 5, deadline, polls[0].answeredAt);
      OneMoreSlowDown(|polls|, intervalSec);
    }
  }

  lemma NoFewerTimes(k: nat, interval: int)
    requires interval >= 1
    ensures k <= k * interval
  {
  }

  /** With an interval of at least a second a login ends, after at most expiresIn / interval polls whatever is answered. */
  lemma PollsAreBounded(least: nat, interval: int, expiresIn: int, start: int, turns: seq<Turn>)
    requires interval >= 1
    ensures var run := Login(least, interval, expiresIn, start, turns);
            var k := |run.polls|;
            && k * interval <= Max(0, expiresIn)
            && (|turns| > Max(0, expiresIn) ==> run.outcome.Some?)
  {
    var deadline := start + expiresIn * 1000;
    var run := Login(least, interval, expiresIn, start, turns);
    PlayedIsTimely(least, interval, deadline, start, turns);
    PlayedEndsAsAnswered(least, interval, deadline, start, turns);
    if run.polls != [] {
      WaitsFit(least, run.polls, interval, deadline, start);
      NoFewerTimes(|run.polls|, interval);
    }
  }

  /** While it answers slow_down, k polls satisfy k·I + 5·k·(k−1)/2 <= expiresIn. */
  lemma SlowDownsAreBounded(least: nat, interval: int, expiresIn: int, start: int, turns: seq<Turn>)
    requires interval >= 0
    requires var polls := Login(least, interval, expiresIn, start, turns).polls;
             polls != [] && forall i :: 0 <= i < |polls| - 1 ==> SlowDown(polls[i].reply)
    ensures var k := |Login(least, interval, expiresIn, start, turns).polls|;
            2 * k * interval + 5 * k * (k - 1) <= 2 * expiresIn
  {
    var deadline, polls := start + expiresIn * 1000, Login(least, interval, expiresIn, start, turns).polls;
    PlayedIsTimely(least, interval, deadline, start, turns);
    WaitsFit(least, polls, interval, deadline, start);
    SlowDownWaits(least, polls, interval, deadline, start);
    assert TotalWait(polls) <= expiresIn;
  }

  // ---- When a login is sure to end ----

  lemma {:induction false} EachPollTakesTime(least: nat, polls: seq<Poll>, intervalSec: int, deadline: int, now: int)
    requires Timely(least, polls, intervalSec, deadline, now) && polls != []
    ensures now + |polls| * least <= deadline
    decreases |polls|
  {
    if |polls| == 1 {
    } else {
      EachPollTakesTime(least, polls[1..], Next(intervalSec, polls[0].reply), deadline, polls[0].answeredAt);
      assert |polls| * least == least + (|polls| - 1) * least;
    }
  }

  /** Whatever the interval, a login whose sleeps take time ends: with the default sleep, after at most as many polls as
      the device code lives milliseconds. */
  lemma LifetimeBoundsPolls(least: nat, interval: int, expiresIn: int, start: int, turns: seq<Turn>)
    requires least >= 1
    ensures var run := Login(least, interval, expiresIn, start, turns);
            && |run.polls| * least <= Max(0, 1000 * expiresIn) && |run.polls| <= Max(0, 1000 * expiresIn)
            && (|turns| > Max(0, 1000 * expiresIn) ==> run.outcome.Some?)
  {
    var run := Login(least, interval, expiresIn, start, turns);
    PlayedIsTimely(least, interval, start + expiresIn * 1000, start, turns);
    PlayedEndsAsAnswered(least, interval, start + expiresIn * 1000, start, turns);
    NoFewerTimes(|run.polls|, least);
    if run.polls == [] {
    } else {
      EachPollTakesTime(least, run.polls, interval, start + expiresIn * 1000, start);
    }
  }

  ghost predicate NeverMoreThan(n: nat, least: nat, interval: int, expiresIn: int) {
    forall start: int, turns: seq<Turn> :: |Login(least, interval, expiresIn, start, turns).polls| <= n
  }

  /** Some number of polls is not exceeded, whatever the server answers and however long everything takes. */
  ghost predicate SureToEnd(least: nat, interval: int, expiresIn: int) {
    exists n: nat :: NeverMoreThan(n, least, interval, expiresIn)
  }

  /** A prompt server that leaves the login undecided. */
  function Pending(k: nat): (turns: seq<Turn>)
    ensures |turns| == k
  {
    seq(k, _ => Turn(0, 0, Refused(Some(Obj(map["error" := Str("authorization_pending")])))))
  }

  /** With no interval, a poll is sent at the end of each shortest sleep. */
  lemma {:induction false} PollsWithoutPause(least: nat, interval: int, deadline: int, now: int, k: nat)
    requires interval <= 0 && now + k * least <= deadline
    ensures |Played(least, interval, deadline, now, Pending(k)).polls| == k
    decreases k
  {
    if k == 0 {
    } else {
      assert Pending(k)[0].reply.body.value.fields["error"] == Str("authorization_pending");
      assert Pending(k)[1..] == Pending(k - 1);
      assert k * least == least + (k - 1) * least && (k - 1) * least >= 0;
      PollsWithoutPause(least, interval, deadline, now + least, k - 1);
    }
  }

  lemma PollsAreFew(least: nat, interval: int, expiresIn: int)
    requires interval >= 1
    ensures NeverMoreThan(Max(0, expiresIn), least, interval, expiresIn)
  {
    forall start: int, turns: seq<Turn>
      ensures |Login(least, interval, expiresIn, start, turns).polls| <= Max(0, expiresIn)
    {
      PollsAreBounded(least, interval, expiresIn, start, turns);
      NoFewerTimes(|Login(least, interval, expiresIn, start, turns).polls|, interval);
    }
  }

  lemma LifetimeBoundsAll(least: nat, interval: int, expiresIn: int)
    requires least >= 1
    ensures NeverMoreThan(Max(0, 1000 * expiresIn), least, interval, expiresIn)
  {
    forall start: int, turns: seq<Turn>
      ensures |Login(least, interval, expiresIn, start, turns).polls| <= Max(0, 1000 * expiresIn)
    {
      LifetimeBoundsPolls(least, interval, expiresIn, start, turns);
    }
  }

  /** Without an interval, a lifetime of E seconds and the default sleep, 1000·E polls are possible and no more. */
  lemma PollsEachMillisecond(interval: int, expiresIn: int, n: nat)
    requires interval <= 0
    ensures NeverMoreThan(n, 1, interval, expiresIn) <==> n >= 1000 * expiresIn
  {
    if n >= 1000 * expiresIn {
      LifetimeBoundsAll(1, interval, expiresIn);
      assert forall start: int, turns: seq<Turn> :: |Login(1, interval, expiresIn, start, turns).polls| <= Max(0, 1000 * expiresIn) <= n;
    } else {
      PollsWithoutPause(1, interval, expiresIn * 1000, 0, 1000 * expiresIn);
      assert |Login(1, interval, expiresIn, 0, Pending(1000 * expiresIn)).polls| > n;
    }
  }

  /** A login is sure to end if the interval is positive, if every sleep takes time, or if the code has expired already;
      only a sleep that can take no time at all lets a zero or negative interval poll without end. */
  lemma SureToEndExactlyWhen(least: nat, interval: int, expiresIn: int)
    ensures SureToEnd(least, interval, expiresIn) <==> interval >= 1 || least >= 1 || expiresIn < 0
  {
    if interval >= 1 {
      PollsAreFew(least, interval, expiresIn);
    } else if least >= 1 {
      LifetimeBoundsAll(least, interval, expiresIn);
    } else if expiresIn < 0 {
      assert NeverMoreThan(0, least, interval, expiresIn);
    } else {
      forall n: nat ensures !NeverMoreThan(n, least, interval, expiresIn) {
        PollsWithoutPause(least, interval, expiresIn * 1000, 0, n + 1);
        assert |Login(least, interval, expiresIn, 0, Pending(n + 1)).polls| > n;
      }
    }
  }
}

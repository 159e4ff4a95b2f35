/**
 Sign-in control flow (src/auth/signin.rs, with the EResult mapping of
 src/auth/webapi.rs): the staged password flow, the time-budgeted poll loop, and the token
 store with its fallback. Steam's answers, the clock and the store's failures are inputs.
 */
module SignIn {
  import opened Wrappers
  import EResult

  const RATE_LIMIT_BACKOFF_SECS: nat := 60

  const GUARD_TYPE_NONE: int := 1
  const GUARD_TYPE_EMAIL_CODE: int := 2
  const GUARD_TYPE_DEVICE_CODE: int := 3

  const TOKEN_EXPIRY_SLACK_SECS: nat := 60
  const POLL_BUDGET_MS: nat := 120_000
  const POLL_DEFAULT_INTERVAL_SECS: nat := 5

  type Token = string

  datatype Outcome =
    | Success(steamId: nat, token: Token, accessToken: Option<string>)
    | NeedsMobileGuardCode
    | GuardCodeRejected
    | NeedsEmailGuardCode(domain: string)
    | InvalidCredentials
    | TokenRejected
    | RateLimited(retrySecs: nat)

  datatype Error = AuthRejected | Transport(id: nat) | StoreFailed | Timeout

  type Answer = Result<Outcome, Error>

  /** One WebAPI call: no answer, or an EResult with a body. */
  datatype Reply<T> = NoReply(error: Error) | Reply(eresult: int, body: T)

  function MapNonOkEresult(code: int): Option<Outcome> {
    if code == EResult.INVALID_PASSWORD then Some(InvalidCredentials)
    else if code == EResult.ACCOUNT_LOGON_DENIED then Some(NeedsEmailGuardCode(""))
    else if code == EResult.ACCOUNT_LOGIN_DENIED_NEED_TWO_FACTOR then Some(NeedsMobileGuardCode)
    else if code == EResult.TWO_FACTOR_CODE_MISMATCH then Some(GuardCodeRejected)
    else if code == EResult.RATE_LIMIT_EXCEEDED || code == EResult.ACCOUNT_LOGIN_DENIED_THROTTLE then
      Some(RateLimited(RATE_LIMIT_BACKOFF_SECS))
    else None
  }

  /** A stage either goes on with a value or ends the flow. */
  datatype Stage<T> = Continue(value: T) | Exit(answer: Answer)

  function Staged<T>(reply: Reply<T>): Stage<T> {
    match reply
    case NoReply(error) => Exit(Err(error))
    case Reply(code, body) =>
      if code == EResult.OK then Continue(body)
      else
        match MapNonOkEresult(code)
        case Some(outcome) => Exit(Ok(outcome))
        case None => Exit(Err(AuthRejected))
  }

  // ------------------------------------------------------------------
  // Polling
  // ------------------------------------------------------------------

  datatype PollBody = PollBody(newClientId: Option<nat>, token: Option<Token>, accessToken: Option<string>)

  /** One poll: how late the sleep before it ended, how long the call took, what came back. */
  datatype Poll = Poll(lateMs: nat, tookMs: nat, reply: Reply<PollBody>)

  /** Whole seconds between polls. */
  type Interval = n: nat | 1 <= n <= 60 witness 5

  /** What Steam sends of a begun session. An interval that is not finite counts as absent. */
  datatype Session = Session(
    clientId: nat, steamId: nat, interval: Option<real>, guards: seq<int>, emailDomain: Option<string>)

  datatype Begin = Begin(
    clientId: nat, steamId: nat, pollSecs: Interval, guards: seq<int>, emailDomain: Option<string>)

  datatype Claims = Claims(steamId: nat, exp: Option<nat>)

  /** The hint clamped to one minute and rounded, half away from zero. */
  function PollInterval(hint: Option<real>): (secs: Interval)
    ensures hint.None? || hint.value <= 0.0 ==> secs == 5
    ensures hint.Some? && 0.0 < hint.value <= 1.0 ==> secs == 1
    ensures hint.Some? && hint.value >= 60.0 ==> secs == 60
    ensures hint.Some? && 1.0 <= hint.value <= 60.0 ==> -0.5 <= hint.value - secs as real < 0.5
  {
    if hint.None? || hint.value <= 0.0 then POLL_DEFAULT_INTERVAL_SECS
    else
      var clamped := if hint.value < 1.0 then 1.0 else if hint.value > 60.0 then 60.0 else hint.value;
      (clamped + 0.5).Floor
  }

  function RotateClientId(current: nat, hint: Option<nat>): nat {
    if hint.Some? && hint.value != 0 then hint.value else current
  }

  function NonEmpty(s: Option<string>): Option<string> {
    if s.Some? && s.value != "" then s else None
  }

  /** What a poll's reply makes of the flow; `None` means poll again. */
  function PollVerdict(decode: Token -> Option<Claims>, begin: Begin, reply: Reply<PollBody>): Option<Answer> {
    match Staged(reply)
    case Exit(answer) => Some(answer)
    case Continue(body) =>
      if NonEmpty(body.token).None? then None
      else
        var token := body.token.value;
        var claims := decode(token);
        var steamId := if claims.Some? then claims.value.steamId else begin.steamId;
        Some(Ok(Success(steamId, token, NonEmpty(body.accessToken))))
  }

  function HintOf(reply: Reply<PollBody>): Option<nat> {
    if reply.Reply? then reply.body.newClientId else None
  }

  predicate Rotates(reply: Reply<PollBody>) {
    HintOf(reply).Some? && HintOf(reply).value != 0
  }

  /** The client id after `n` polls, one rotation at a time. */
  function ClientIdAfter(begin: Begin, polls: seq<Poll>, n: nat): nat
    requires n <= |polls|
  {
    if n == 0 then begin.clientId
    else RotateClientId(ClientIdAfter(begin, polls, n - 1), HintOf(polls[n - 1].reply))
  }

  /** No poll from `lo` up to `hi` carried a client id other than zero. */
  predicate Unrotated(polls: seq<Poll>, lo: nat, hi: nat)
    requires hi <= |polls|
  {
    forall i :: lo <= i < hi ==> !Rotates(polls[i].reply)
  }

  /** Poll `k` carried `id`, and no later one of the first `n` carried another. */
  ghost predicate LastHintAt(polls: seq<Poll>, n: nat, k: nat, id: nat)
    requires n <= |polls|
  {
    k < n && HintOf(polls[k].reply) == Some(id) && id != 0 && Unrotated(polls, k + 1, n)
  }

  /** The id polled with is the last one hinted that is not zero, at `k`, or else the session's first. */
  lemma {:induction false} ClientIdIsLastHint(begin: Begin, polls: seq<Poll>, n: nat) returns (k: Option<nat>)
    requires n <= |polls|
    ensures k.None? ==> Unrotated(polls, 0, n) && ClientIdAfter(begin, polls, n) == begin.clientId
    ensures k.Some? ==> LastHintAt(polls, n, k.value, ClientIdAfter(begin, polls, n))
  {
    if n == 0 {
      k := None;
    } else if Rotates(polls[n - 1].reply) {
      k := Some(n - 1);
    } else {
      k := ClientIdIsLastHint(begin, polls, n - 1);
    }
  }

  /** When poll `k` is due, from the moment the first one is made. */
  function DueAt(intervalMs: nat, polls: seq<Poll>, k: nat): nat
    requires k < |polls|
  {
    if k == 0 then 0 else DueAt(intervalMs, polls, k - 1) + polls[k - 1].tookMs + intervalMs + polls[k].lateMs
  }

  lemma {:induction false} DueIsSpaced(intervalMs: nat, polls: seq<Poll>, k: nat)
    requires k < |polls|
    ensures DueAt(intervalMs, polls, k) >= k * intervalMs
  {
    if k > 0 {
      DueIsSpaced(intervalMs, polls, k - 1);
      assert k * intervalMs == (k - 1) * intervalMs + intervalMs;
    }
  }

  /** A poll after the first is made only if it is due within the budget. */
  predicate InTime(intervalMs: nat, polls: seq<Poll>, k: nat)
    requires k < |polls|
  {
    k == 0 || DueAt(intervalMs, polls, k) < POLL_BUDGET_MS
  }

  /** How polling ended: with an answer, or still going when the script ran out. */
  datatype Polled = Done(answer: Answer) | StillPolling {
    predicate Succeeded() {
      Done? && answer.Ok? && answer.value.Success?
    }
  }

  /** The answer of the first poll, from `k` on, that is too late or decides. */
  function PollFrom(decode: Token -> Option<Claims>, begin: Begin, polls: seq<Poll>, k: nat): Polled
    requires k <= |polls|
    decreases |polls| - k
  {
    if k == |polls| then StillPolling
    else if !InTime(begin.pollSecs * 1000, polls, k) then Done(Err(Timeout))
    else
      match PollVerdict(decode, begin, polls[k].reply)
      case Some(answer) => Done(answer)
      case None => PollFrom(decode, begin, polls, k + 1)
  }

  function CeilDiv(a: nat, b: nat): nat
    requires b > 0
  {
    (a + b - 1) / b
  }

  lemma PastTheBudget(n: nat, secs: nat)
    requires secs > 0 && n >= CeilDiv(120, secs)
    ensures n * (secs * 1000) >= POLL_BUDGET_MS
  {
    var q := CeilDiv(120, secs);
    assert q * secs >= 120 by {
      assert 120 + secs - 1 == q * secs + (120 + secs - 1) % secs;
    }
    assert n * secs == q * secs + (n - q) * secs;
    assert n * (secs * 1000) == (n * secs) * 1000;
  }

  /** Calls due within the budget, an interval apart, number at most their quotient rounded up. */
  lemma CallsWithinBudget(secs: nat, polls: seq<Poll>, last: nat)
    requires secs > 0 && last < |polls|
    requires InTime(secs * 1000, polls, last)
    ensures last < CeilDiv(120, secs)
  {
    if last > 0 && last >= CeilDiv(120, secs) {
      PastTheBudget(last, secs);
      DueIsSpaced(secs * 1000, polls, last);
    }
  }

  /** The calls made: each in time, and with the client id of that moment. */
  ghost predicate Calls(begin: Begin, polls: seq<Poll>, used: seq<nat>) {
    && |used| <= |polls|
    && forall k :: 0 <= k < |used| ==>
         used[k] == ClientIdAfter(begin, polls, k) && InTime(begin.pollSecs * 1000, polls, k)
  }

  ghost predicate Undecided(decode: Token -> Option<Claims>, begin: Begin, polls: seq<Poll>, n: nat) {
    n <= |polls| && forall k :: 0 <= k < n ==> PollVerdict(decode, begin, polls[k].reply).None?
  }

  /** Before poll `n`: the id to use, the time its sleep starts, and nothing decided yet. */
  ghost predicate Polling(
    decode: Token -> Option<Claims>, begin: Begin, polls: seq<Poll>, n: nat, clientId: nat, elapsed: nat)
  {
    && n <= |polls|
    && clientId == ClientIdAfter(begin, polls, n)
    && elapsed == (if n == 0 then 0 else DueAt(begin.pollSecs * 1000, polls, n - 1) + polls[n - 1].tookMs)
    && PollFrom(decode, begin, polls, 0) == PollFrom(decode, begin, polls, n)
  }

  lemma PollStep(
    decode: Token -> Option<Claims>, begin: Begin, polls: seq<Poll>, n: nat, clientId: nat, elapsed: nat)
    requires Polling(decode, begin, polls, n, clientId, elapsed) && n < |polls|
    ensures var interval := begin.pollSecs * 1000;
            var verdict := PollVerdict(decode, begin, polls[n].reply);
            var due := if n == 0 then 0 else elapsed + interval + polls[n].lateMs;
            && (InTime(interval, polls, n) <==> n == 0 || due < POLL_BUDGET_MS)
            && (!InTime(interval, polls, n) ==> PollFrom(decode, begin, polls, 0) == Done(Err(Timeout)))
            && (InTime(interval, polls, n) && verdict.Some? ==>
                  PollFrom(decode, begin, polls, 0) == Done(verdict.value))
            && (InTime(interval, polls, n) && verdict.None? ==>
                  Polling(decode, begin, polls, n + 1, RotateClientId(clientId, HintOf(polls[n].reply)),
                          due + polls[n].tookMs))
  {
  }

  /**
   Poll at once, then after each interval, until a reply decides or the budget is spent.
   `used` lists the client id of each call made.
   */
  method PollForToken(decode: Token -> Option<Claims>, begin: Begin, polls: seq<Poll>)
    returns (r: Polled, used: seq<nat>)
    ensures r == PollFrom(decode, begin, polls, 0)
    ensures |used| <= CeilDiv(120, begin.pollSecs)
    ensures polls != [] ==> used != []
    ensures Calls(begin, polls, used)
    ensures used != [] ==> Undecided(decode, begin, polls, |used| - 1)
  {
    var interval := begin.pollSecs * 1000;
    var clientId := begin.clientId;
    var elapsed: nat := 0;
    var first := true;
    used := [];
    while true
      invariant first <==> used == []
      invariant Calls(begin, polls, used) && Undecided(decode, begin, polls, |used|)
      invariant Polling(decode, begin, polls, |used|, clientId, elapsed)
      decreases |polls| - |used|
    {
      if |used| == |polls| {
        r := StillPolling;
        break;
      }
      var poll := polls[|used|];
      PollStep(decode, begin, polls, |used|, clientId, elapsed);
      if first {
        first := false;
      } else {
        elapsed := elapsed + interval + poll.lateMs;
        if elapsed >= POLL_BUDGET_MS {
          r := Done(Err(Timeout));
          break;
        }
      }
      var verdict := PollVerdict(decode, begin, poll.reply);
      used := used + [clientId];
      if verdict.Some? {
        r := Done(verdict.value);
        break;
      }
      elapsed := elapsed + poll.tookMs;
      clientId := RotateClientId(clientId, poll.reply.body.newClientId);
    }
    if used != [] {
      CallsWithinBudget(begin.pollSecs, polls, |used| - 1);
    }
  }

  // ------------------------------------------------------------------
  // The password flow
  // ------------------------------------------------------------------

  /**
   Everything that answers in the course of one password flow: the HTTP client, the key
   (absent when a field is missing), the encryption, the session (absent likewise), the code
   generator and the guard code's update call.
   */
  datatype Steam = Steam(
    client: Option<Error>,
    rsa: Reply<Option<nat>>,
    encrypt: Option<Error>,
    begin: Reply<Option<Session>>,
    code: Option<Error>,
    guard: Reply<()>)

  function ResolveGuard(steam: Steam, begin: Begin, haveSecret: bool): Stage<()> {
    if GUARD_TYPE_DEVICE_CODE in begin.guards then
      if !haveSecret then Exit(Ok(NeedsMobileGuardCode))
      else if steam.code.Some? then Exit(Err(steam.code.value))
      else Staged(steam.guard)
    else if GUARD_TYPE_EMAIL_CODE in begin.guards then
      Exit(Ok(NeedsEmailGuardCode(if begin.emailDomain.Some? then begin.emailDomain.value else "")))
    else if begin.guards != [] && GUARD_TYPE_NONE !in begin.guards then Exit(Err(AuthRejected))
    else Continue(())
  }

  function Present<T>(found: Option<T>): Stage<T> {
    if found.Some? then Continue(found.value) else Exit(Err(AuthRejected))
  }

  function Failing(error: Option<Error>): Stage<()> {
    if error.Some? then Exit(Err(error.value)) else Continue(())
  }

  /** Run the next stage only when this one went on. */
  function Then<T, U>(stage: Stage<T>, next: T -> Stage<U>): Stage<U> {
    match stage
    case Exit(answer) => Exit(answer)
    case Continue(value) => next(value)
  }

  function Begun(session: Session): Begin {
    Begin(session.clientId, session.steamId, PollInterval(session.interval), session.guards, session.emailDomain)
  }

  /** The stages before polling: the key, the session, Steam Guard. */
  function BeforePoll(steam: Steam, haveSecret: bool): Stage<Begin> {
    Then(Failing(steam.client), _ =>
      Then(Staged(steam.rsa), key =>
        Then(Present(key), _ =>
          Then(Failing(steam.encrypt), _ =>
            Then(Staged(steam.begin), session =>
              Then(Present(session), found =>
                Then(ResolveGuard(steam, Begun(found), haveSecret), _ => Continue(Begun(found)))))))))
  }

  function PasswordOutcome(steam: Steam, haveSecret: bool, decode: Token -> Option<Claims>, polls: seq<Poll>): Polled {
    match BeforePoll(steam, haveSecret)
    case Exit(answer) => Done(answer)
    case Continue(begin) => PollFrom(decode, begin, polls, 0)
  }

  /** `token` came with a successful poll made in time, after polls that decided nothing. */
  ghost predicate Issued(decode: Token -> Option<Claims>, begin: Begin, polls: seq<Poll>, o: Outcome) {
    exists k :: 0 <= k < |polls| && InTime(begin.pollSecs * 1000, polls, k)
                && PollVerdict(decode, begin, polls[k].reply) == Some(Ok(o))
  }

  lemma {:induction false} PollFromIssues(decode: Token -> Option<Claims>, begin: Begin, polls: seq<Poll>, k: nat)
    requires k <= |polls|
    ensures PollFrom(decode, begin, polls, k) != Done(Ok(TokenRejected))
    ensures PollFrom(decode, begin, polls, k).Succeeded() ==>
              Issued(decode, begin, polls, PollFrom(decode, begin, polls, k).answer.value)
    decreases |polls| - k
  {
    if k < |polls| {
      PollFromIssues(decode, begin, polls, k + 1);
    }
  }

  /**
   The password flow never answers that a token was rejected. It succeeds only past every
   stage, with a non-empty token that Steam issued to a poll made within the budget.
   */
  lemma PasswordIssues(steam: Steam, haveSecret: bool, decode: Token -> Option<Claims>, polls: seq<Poll>)
    ensures PasswordOutcome(steam, haveSecret, decode, polls) != Done(Ok(TokenRejected))
    ensures PasswordOutcome(steam, haveSecret, decode, polls).Succeeded() ==>
              && var o := PasswordOutcome(steam, haveSecret, decode, polls).answer.value;
              && o.token != "" && o.accessToken != Some("")
              && BeforePoll(steam, haveSecret).Continue?
              && Issued(decode, BeforePoll(steam, haveSecret).value, polls, o)
  {
    var stage := BeforePoll(steam, haveSecret);
    if stage.Continue? {
      PollFromIssues(decode, stage.value, polls, 0);
    }
  }

  // ------------------------------------------------------------------
  // The same flow, case by case
  // ------------------------------------------------------------------

  /** What a call that came back with a code other than 1 answers. */
  function CodeAnswer(code: int): Answer {
    if code == 5 then Ok(InvalidCredentials)
    else if code == 63 then Ok(NeedsEmailGuardCode(""))
    else if code == 84 || code == 87 then Ok(RateLimited(60))
    else if code == 85 then Ok(NeedsMobileGuardCode)
    else if code == 88 then Ok(GuardCodeRejected)
    else Err(AuthRejected)
  }

  /** The call came back with code 1. */
  predicate Good<T>(reply: Reply<T>) {
    reply.Reply? && reply.eresult == 1
  }

  /** What a call that did not answers. */
  function CallAnswer<T>(reply: Reply<T>): Answer
    requires !Good(reply)
  {
    if reply.NoReply? then Err(reply.error) else CodeAnswer(reply.eresult)
  }

  lemma StagedMeans<T>(reply: Reply<T>)
    ensures Good(reply) ==> Staged(reply) == Continue(reply.body)
    ensures !Good(reply) ==> Staged(reply) == Exit(CallAnswer(reply))
  {
  }

  /** The client, the key call, the key and the encryption. */
  predicate KeyGood(steam: Steam) {
    steam.client.None? && Good(steam.rsa) && steam.rsa.body.Some? && steam.encrypt.None?
  }

  predicate SessionGood(steam: Steam) {
    KeyGood(steam) && Good(steam.begin) && steam.begin.body.Some?
  }

  /** Device code 3 needs a secret and an accepted code, email code 2 cannot be met, 1 asks for nothing. */
  predicate GuardGood(steam: Steam, guards: seq<int>, haveSecret: bool) {
    if 3 in guards then haveSecret && steam.code.None? && Good(steam.guard)
    else 2 !in guards && (guards == [] || 1 in guards)
  }

  /** Where the flow stops for want of a key. */
  function KeyAnswer(steam: Steam): Answer
    requires !KeyGood(steam)
  {
    if steam.client.Some? then Err(steam.client.value)
    else if !Good(steam.rsa) then CallAnswer(steam.rsa)
    else if steam.rsa.body.None? then Err(AuthRejected)
    else Err(steam.encrypt.value)
  }

  /** Where it stops at Steam Guard. */
  function GuardAnswer(steam: Steam, session: Session, haveSecret: bool): Answer
    requires !GuardGood(steam, session.guards, haveSecret)
  {
    if 3 in session.guards then
      if !haveSecret then Ok(NeedsMobileGuardCode)
      else if steam.code.Some? then Err(steam.code.value)
      else CallAnswer(steam.guard)
    else if 2 in session.guards then
      Ok(NeedsEmailGuardCode(if session.emailDomain.Some? then session.emailDomain.value else ""))
    else Err(AuthRejected)
  }

  lemma BeginMeans(steam: Steam, haveSecret: bool)
    ensures !KeyGood(steam) ==> BeforePoll(steam, haveSecret) == Exit(KeyAnswer(steam))
    ensures KeyGood(steam) && !SessionGood(steam) ==>
              BeforePoll(steam, haveSecret)
              == Exit(if Good(steam.begin) then Err(AuthRejected) else CallAnswer(steam.begin))
  {
    StagedMeans(steam.rsa);
    StagedMeans(steam.begin);
  }

  lemma GuardMeans(steam: Steam, session: Session, haveSecret: bool)
    ensures GuardGood(steam, session.guards, haveSecret) ==>
              ResolveGuard(steam, Begun(session), haveSecret) == Continue(())
    ensures !GuardGood(steam, session.guards, haveSecret) ==>
              ResolveGuard(steam, Begun(session), haveSecret) == Exit(GuardAnswer(steam, session, haveSecret))
  {
    StagedMeans(steam.guard);
    assert steam.guard.Reply? ==> steam.guard.body == ();
  }

  /**
   The password flow, case by case. It polls if and only if the key and the session are good
   and Steam Guard is satisfied, and then with the session's own client id, SteamID and
   interval; otherwise it answers for the first stage that fails.
   */
  lemma PasswordMeans(steam: Steam, haveSecret: bool, decode: Token -> Option<Claims>, polls: seq<Poll>)
    ensures !KeyGood(steam) ==> PasswordOutcome(steam, haveSecret, decode, polls) == Done(KeyAnswer(steam))
    ensures KeyGood(steam) && !Good(steam.begin) ==>
              PasswordOutcome(steam, haveSecret, decode, polls) == Done(CallAnswer(steam.begin))
    ensures KeyGood(steam) && Good(steam.begin) && steam.begin.body.None? ==>
              PasswordOutcome(steam, haveSecret, decode, polls) == Done(Err(AuthRejected))
    ensures SessionGood(steam) && !GuardGood(steam, steam.begin.body.value.guards, haveSecret) ==>
              PasswordOutcome(steam, haveSecret, decode, polls)
              == Done(GuardAnswer(steam, steam.begin.body.value, haveSecret))
    ensures SessionGood(steam) && GuardGood(steam, steam.begin.body.value.guards, haveSecret) ==>
              var session := steam.begin.body.value;
              PasswordOutcome(steam, haveSecret, decode, polls)
              == PollFrom(decode, Begin(session.clientId, session.steamId, PollInterval(session.interval),
                                        session.guards, session.emailDomain), polls, 0)
  {
    StagedMeans(steam.rsa);
    StagedMeans(steam.begin);
    BeginMeans(steam, haveSecret);
    if SessionGood(steam) {
      GuardMeans(steam, steam.begin.body.value, haveSecret);
    }
  }

  /**
   What a poll's reply does: a call that failed answers for itself, a token that is not empty
   succeeds under its own SteamID or else the session's, and anything else polls again.
   */
  lemma PollMeans(decode: Token -> Option<Claims>, begin: Begin, reply: Reply<PollBody>)
    ensures !Good(reply) ==> PollVerdict(decode, begin, reply) == Some(CallAnswer(reply))
    ensures Good(reply) && reply.body.token in {None, Some("")} ==> PollVerdict(decode, begin, reply) == None
    ensures Good(reply) && reply.body.token.Some? && reply.body.token.value != "" ==>
              var token := reply.body.token.value;
              PollVerdict(decode, begin, reply)
              == Some(Ok(Success(if decode(token).Some? then decode(token).value.steamId else begin.steamId, token,
                                 if reply.body.accessToken == Some("") then None else reply.body.accessToken)))
  {
    StagedMeans(reply);
  }

  function Sum(ns: seq<nat>): nat {
    if ns == [] then 0 else Sum(ns[..|ns| - 1]) + ns[|ns| - 1]
  }

  /** Poll `k` is due after k intervals and all the time the calls and late wake-ups before it took. */
  lemma {:induction false} DueMeans(intervalMs: nat, polls: seq<Poll>, k: nat)
    requires k < |polls|
    ensures DueAt(intervalMs, polls, k)
            == k * intervalMs
               + Sum(seq(k, i requires 0 <= i < k => polls[i].tookMs))
               + Sum(seq(k, i requires 0 <= i < k => polls[i + 1].lateMs))
  {
    if k > 0 {
      DueMeans(intervalMs, polls, k - 1);
      var took := seq(k, i requires 0 <= i < k => polls[i].tookMs);
      var late := seq(k, i requires 0 <= i < k => polls[i + 1].lateMs);
      assert took[..k - 1] == seq(k - 1, i requires 0 <= i < k - 1 => polls[i].tookMs);
      assert late[..k - 1] == seq(k - 1, i requires 0 <= i < k - 1 => polls[i + 1].lateMs);
      assert k * intervalMs == (k - 1) * intervalMs + intervalMs;
    }
  }

  // ------------------------------------------------------------------
  // Refresh token and token store
  // ------------------------------------------------------------------

  /** The offline check of a refresh token: it decodes and is not about to expire. */
  function RefreshFlow(decode: Token -> Option<Claims>, token: Token, nowSecs: nat): Answer {
    match decode(token)
    case None => Err(AuthRejected)
    case Some(claims) =>
      if claims.exp.Some? && SaturatingSub(claims.exp.value, TOKEN_EXPIRY_SLACK_SECS) <= nowSecs then Ok(TokenRejected)
      else Ok(Success(claims.steamId, token, None))
  }

  function SaturatingSub(a: nat, b: nat): nat {
    if a >= b then a - b else 0
  }

  /** Usable: decodes, and more than a minute remains before it expires. */
  predicate Usable(decode: Token -> Option<Claims>, token: Token, nowSecs: nat) {
    var claims := decode(token);
    claims.Some? && (claims.value.exp.Some? ==> nowSecs + 60 < claims.value.exp.value)
  }

  /**
   The refresh flow succeeds, with the token unchanged, exactly when the token is usable; it
   fails exactly when the token does not decode, and rejects exactly what is left.
   */
  lemma RefreshIff(decode: Token -> Option<Claims>, token: Token, nowSecs: nat)
    ensures Usable(decode, token, nowSecs) <==>
            RefreshFlow(decode, token, nowSecs).Ok? && RefreshFlow(decode, token, nowSecs).value.Success?
    ensures Usable(decode, token, nowSecs) ==>
              RefreshFlow(decode, token, nowSecs) == Ok(Success(decode(token).value.steamId, token, None))
    ensures RefreshFlow(decode, token, nowSecs) == Err(AuthRejected) <==> decode(token).None?
    ensures RefreshFlow(decode, token, nowSecs) == Ok(TokenRejected) <==>
            decode(token).Some? && !Usable(decode, token, nowSecs)
  {
  }

  /** A caller's token store; loads and saves may fail. */
  class TokenStore {
    var tokens: map<string, Token>
    ghost var saves: nat

    method Load(account: string, fails: bool) returns (r: Result<Option<Token>, Error>)
      ensures r == if fails then Err(StoreFailed)
                   else Ok(if account in tokens then Some(tokens[account]) else None)
    {
      if fails {
        return Err(StoreFailed);
      }
      return Ok(if account in tokens then Some(tokens[account]) else None);
    }

    method Save(account: string, token: Token, fails: bool) returns (r: Result<(), Error>)
      modifies this
      ensures saves == old(saves) + 1
      ensures r == if fails then Err(StoreFailed) else Ok(())
      ensures tokens == if fails then old(tokens) else old(tokens)[account := token]
    {
      saves := saves + 1;
      if fails {
        return Err(StoreFailed);
      }
      tokens := tokens[account := token];
      return Ok(());
    }
  }

  datatype Credentials = Password(account: string, haveSecret: bool) | RefreshToken(token: Token)

  /** The password flow, from the key to the last poll. */
  method PasswordFlow(steam: Steam, haveSecret: bool, decode: Token -> Option<Claims>, polls: seq<Poll>)
    returns (r: Polled)
    ensures r == PasswordOutcome(steam, haveSecret, decode, polls)
    ensures r != Done(Ok(TokenRejected))
    ensures !KeyGood(steam) ==> r == Done(KeyAnswer(steam))
    ensures KeyGood(steam) && !Good(steam.begin) ==> r == Done(CallAnswer(steam.begin))
    ensures KeyGood(steam) && Good(steam.begin) && steam.begin.body.None? ==> r == Done(Err(AuthRejected))
    ensures SessionGood(steam) && !GuardGood(steam, steam.begin.body.value.guards, haveSecret) ==>
              r == Done(GuardAnswer(steam, steam.begin.body.value, haveSecret))
    ensures SessionGood(steam) && GuardGood(steam, steam.begin.body.value.guards, haveSecret) ==>
              var session := steam.begin.body.value;
              r == PollFrom(decode, Begin(session.clientId, session.steamId, PollInterval(session.interval),
                                          session.guards, session.emailDomain), polls, 0)
  {
    PasswordMeans(steam, haveSecret, decode, polls);
    PasswordIssues(steam, haveSecret, decode, polls);
    var stage := BeforePoll(steam, haveSecret);
    if stage.Exit? {
      return Done(stage.answer);
    }
    var used;
    r, used := PollForToken(decode, stage.value, polls);
  }

  /**
   Sign in through a store. For a password: a usable stored token is returned without the
   password flow, and one that is missing, expired or undecodable leads to it. The store is
   written at most once, and holds the token returned whenever the call succeeds. A refresh
   token bypasses the store.
   */
  method ExecuteWithStore(
    credentials: Credentials, store: TokenStore, decode: Token -> Option<Claims>, nowSecs: nat,
    steam: Steam, polls: seq<Poll>, loadFails: bool, saveFails: bool)
    returns (r: Polled, ranPassword: bool)
    modifies store
    ensures store.saves <= old(store.saves) + 1
    ensures credentials.RefreshToken? ==>
              && !ranPassword && store.saves == old(store.saves)
              && r == Done(RefreshFlow(decode, credentials.token, nowSecs))
    ensures credentials.Password? ==> r != Done(Ok(TokenRejected))
    ensures store.tokens == if credentials.Password? && r.Succeeded()
                            then old(store.tokens)[credentials.account := r.answer.value.token]
                            else old(store.tokens)
    ensures credentials.Password? ==>
              (ranPassword <==>
                 && !loadFails
                 && (credentials.account in old(store.tokens) ==>
                       !Usable(decode, old(store.tokens)[credentials.account], nowSecs)))
    ensures credentials.Password? && loadFails ==> r == Done(Err(StoreFailed)) && store.saves == old(store.saves)
    ensures credentials.Password? && !loadFails && !ranPassword ==>
              && credentials.account in old(store.tokens)
              && r == if saveFails then Done(Err(StoreFailed))
                      else Done(RefreshFlow(decode, old(store.tokens)[credentials.account], nowSecs))
    ensures ranPassword ==>
              && credentials.Password?
              && var outcome := PasswordOutcome(steam, credentials.haveSecret, decode, polls);
              && r == (if outcome.Succeeded() && saveFails then Done(Err(StoreFailed)) else outcome)
              && (store.saves == old(store.saves) <==> !outcome.Succeeded())
  {
    if credentials.RefreshToken? {
      return Done(RefreshFlow(decode, credentials.token, nowSecs)), false;
    }
    var account := credentials.account;
    var loaded := store.Load(account, loadFails);
    if loaded.Err? {
      return Done(Err(loaded.error)), false;
    }
    if loaded.value.Some? {
      var token := loaded.value.value;
      RefreshIff(decode, token, nowSecs);
      var attempt := RefreshFlow(decode, token, nowSecs);
      // The refresh flow fails only on a token that does not decode: a stale entry.
      var outcome := if attempt.Err? then TokenRejected else attempt.value;
      if outcome.Success? {
        var saved := store.Save(account, outcome.token, saveFails);
        if saved.Err? {
          return Done(Err(saved.error)), false;
        }
        return Done(Ok(outcome)), false;
      }
    }
    ranPassword := true;
    r := PasswordFlow(steam, credentials.haveSecret, decode, polls);
    if r.Succeeded() {
      var saved := store.Save(account, r.answer.value.token, saveFails);
      if saved.Err? {
        r := Done(Err(saved.error));
      }
    }
  }
}

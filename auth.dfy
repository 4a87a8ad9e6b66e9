/**
 * The credential form (components/Auth.tsx): the re-entrancy and cooldown guard of a
 * submission, the one-second countdown, the trimmed e-mail sent to the gateway, the
 * ordered classification of gateway failures, and the mode toggle.
 *
 * A submission is split at its one suspension point: `BeginSubmit` runs up to the gateway
 * call and returns the request it sends, `FinishSubmit` receives the gateway's reply.
 */
module Auth {
  import opened Wrappers
  import opened Text

  /** The length of the lock-out after a rate-limit answer, in one-second ticks. */
  const CooldownSeconds: nat := 60

  /** The HTTP status the gateway uses for "too many requests". */
  const RateLimitStatus: int := 429

  /** A failure thrown by the gateway call: `err.status` and `err.message`, either possibly missing. */
  datatype GatewayError = GatewayError(status: Option<int>, message: Option<string>)

  /** The gateway's reply to a sign-in or sign-up: a failure, or success with or without a session
      (only sign-up looks at the session). */
  datatype Reply = Rejected(error: GatewayError) | Accepted(hasSession: bool)

  /** The call the form makes; a sign-up also names the page the confirmation link leads back to. */
  datatype Request =
    | SignIn(email: string, password: string)
    | SignUp(email: string, password: string, emailRedirectTo: string)

  /** The kinds of failure the form tells apart; `Raw` shows the gateway's own message. */
  datatype Failure = RateLimited | NetworkFailure | InvalidCredentials | EmailNotConfirmed | Raw(message: string) | Unexpected

  /** What the `error` banner shows: the sign-up confirmation note, or a failure message. */
  datatype Notice = ConfirmationSent | FailureNotice(failure: Failure)

  /** `err.message?.toLowerCase() || ''`. */
  function LoweredMessage(e: GatewayError): string {
    match e.message
    case Some(m) => ToLower(m)
    case None => ""
  }

  predicate IsRateLimit(e: GatewayError) {
    || e.status == Some(RateLimitStatus)
    || Contains(LoweredMessage(e), "rate limit")
    || Contains(LoweredMessage(e), "too many requests")
  }

  predicate IsNetworkFailure(e: GatewayError) {
    Contains(LoweredMessage(e), "failed to fetch") || Contains(LoweredMessage(e), "network error")
  }

  predicate IsBadCredentials(e: GatewayError) {
    Contains(LoweredMessage(e), "invalid login credentials")
  }

  predicate IsUnconfirmed(e: GatewayError) {
    Contains(LoweredMessage(e), "email not confirmed")
  }

  /** The rule of each failure kind, on its own: whether the error fits that kind. The last two
      rules are the fallback `err.message || <generic text>`. */
  ghost predicate Fits(e: GatewayError, f: Failure) {
    match f
    case RateLimited => IsRateLimit(e)
    case NetworkFailure => IsNetworkFailure(e)
    case InvalidCredentials => IsBadCredentials(e)
    case EmailNotConfirmed => IsUnconfirmed(e)
    case Raw(m) => m != "" && e.message == Some(m)
    case Unexpected => e.message == None || e.message == Some("")
  }

  /** The position of each rule in the order they are tried. */
  function Priority(f: Failure): nat {
    match f
    case RateLimited => 0
    case NetworkFailure => 1
    case InvalidCredentials => 2
    case EmailNotConfirmed => 3
    case Raw(_) => 4
    case Unexpected => 4
  }

  /** The `catch` block's if/else chain: the first rule, in priority order, that fits. */
  function Classify(e: GatewayError): (f: Failure)
    ensures Fits(e, f)
    ensures forall g :: Fits(e, g) ==> Priority(f) <= Priority(g)
  {
    if IsRateLimit(e) then RateLimited
    else if IsNetworkFailure(e) then NetworkFailure
    else if IsBadCredentials(e) then InvalidCredentials
    else if IsUnconfirmed(e) then EmailNotConfirmed
    else if e.message.Some? && e.message.value != "" then Raw(e.message.value)
    else Unexpected
  }

  /** First-fit determines the classification: a fitting kind that no fitting kind precedes is
      the one `Classify` picks. */
  lemma ClassifyIsFirstFit(e: GatewayError, f: Failure)
    requires Fits(e, f)
    requires forall g :: Fits(e, g) ==> Priority(f) <= Priority(g)
    ensures f == Classify(e)
  {
    var c := Classify(e);
    assert Priority(f) <= Priority(c) && Priority(c) <= Priority(f);
  }

  /** A status of 429 means a rate limit whatever the message says. */
  lemma StatusWins(m: Option<string>)
    ensures Classify(GatewayError(Some(RateLimitStatus), m)) == RateLimited
  {
  }

  /** The rules compare the lower-cased message: the gateway's "Email not confirmed", capital
      letter and all, is recognised as unconfirmed, and none of the earlier rules fires on it. */
  lemma UnconfirmedAnyCase(e: GatewayError)
    requires e.message == Some("Email not confirmed")
    requires e.status != Some(RateLimitStatus)
    ensures Classify(e) == EmailNotConfirmed
  {
    var l := LoweredMessage(e);
    assert l == "email not confirmed" by {
      forall k | 0 <= k < |l| ensures l[k] == "email not confirmed"[k] {
      }
    }
    UnconfirmedMatchesOnlyItsRule();
  }

  /** JavaScript lower-cases U+212A KELVIN SIGN to 'k', so a message spelt with it still meets
      the network rule. */
  lemma KelvinSignLowered(e: GatewayError)
    requires e.message == Some("NETWOR\U{212A} ERROR")
    requires e.status != Some(RateLimitStatus)
    ensures Classify(e) == NetworkFailure
  {
    var l := LoweredMessage(e);
    assert l == "network error" by {
      forall k | 0 <= k < |l| ensures l[k] == "network error"[k] {
      }
    }
    NetworkErrorMatchesNoEarlierRule();
  }

  /** "network error" contains neither rate-limit pattern and does contain the network one. */
  lemma NetworkErrorMatchesNoEarlierRule()
    ensures !Contains("network error", "rate limit")
    ensures !Contains("network error", "too many requests")
    ensures Contains("network error", "network error")
  {
    var l := "network error";
    assert l[0..4] == "netw";
    NotContains(l, "rate limit", 0);
    NotContains(l, "too many requests", 0);
    assert l <= l[0..];
  }

  /** Of the patterns the rules look for, only "email not confirmed" occurs in that message. */
  lemma UnconfirmedMatchesOnlyItsRule()
    ensures !Contains("email not confirmed", "rate limit")
    ensures !Contains("email not confirmed", "too many requests")
    ensures !Contains("email not confirmed", "failed to fetch")
    ensures !Contains("email not confirmed", "network error")
    ensures !Contains("email not confirmed", "invalid login credentials")
    ensures Contains("email not confirmed", "email not confirmed")
  {
    var l := "email not confirmed";
    assert l[0..10] == "email not ";
    NotContains(l, "rate limit", 0);
    NotContains(l, "too many requests", 0);
    NotContains(l, "failed to fetch", 14);
    NotContains(l, "network error", 3);
    NotContains(l, "invalid login credentials", 0);
    assert l <= l[0..];
  }

  /** One tick of the countdown effect: down by one while positive, never below zero. */
  function Countdown(c: nat): (r: nat)
    ensures c > 0 ==> r == c - 1
    ensures c == 0 ==> r == 0
  {
    if c > 0 then c - 1 else c
  }

  /** The counter after `k` ticks. */
  function AfterTicks(c: nat, k: nat): nat {
    if k == 0 then c else AfterTicks(Countdown(c), k - 1)
  }

  /** `k` ticks take `k` off the counter, stopping at zero. */
  lemma {:induction false} AfterTicksCountsDown(c: nat, k: nat)
    ensures AfterTicks(c, k) == if k >= c then 0 else c - k
  {
    if k > 0 {
      AfterTicksCountsDown(Countdown(c), k - 1);
    }
  }

  /** From a full cooldown the counter stays positive for 59 ticks and is zero after 60. */
  lemma CooldownExpires(k: nat)
    ensures AfterTicks(CooldownSeconds, k) == 0 <==> k >= CooldownSeconds
  {
    AfterTicksCountsDown(CooldownSeconds, k);
  }

  /** The condition under which the submit button is disabled. It covers the handler's own guard
      (`loading || cooldown > 0`), and an enabled button means both fields are filled in. */
  predicate SubmitBlocked(loading: bool, email: string, password: string, cooldown: nat): (b: bool)
    ensures loading || cooldown > 0 ==> b
    ensures !b ==> email != "" && password != ""
    ensures email != "" && password != "" ==> (b <==> loading || cooldown > 0)
  {
    loading || email == "" || password == "" || cooldown > 0
  }

  /** After a rate-limit answer, with both fields filled in, the submit button stays disabled for
      the next 59 ticks and is enabled again from the 60th on. */
  lemma RateLimitBlocksForAMinute(email: string, password: string, k: nat)
    requires email != "" && password != ""
    ensures SubmitBlocked(false, email, password, AfterTicks(CooldownSeconds, k)) <==> k < CooldownSeconds
  {
    AfterTicksCountsDown(CooldownSeconds, k);
  }

  /** The request a submission sends: the e-mail trimmed (not lower-cased), the password as typed,
      and for a sign-up the page's origin (`window.location.origin`, passed in as `origin`). */
  function RequestFor(isLogin: bool, email: string, password: string, origin: string): (r: Request)
    ensures r.SignIn? <==> isLogin
    ensures r.email == Trim(email) && r.password == password
    ensures r.SignUp? ==> r.emailRedirectTo == origin
  {
    if isLogin then SignIn(Trim(email), password) else SignUp(Trim(email), password, origin)
  }

  /** The banner a reply leaves: a failure message; the confirmation note after a sign-up that
      brought no session; nothing otherwise. */
  function Settled(isLogin: bool, reply: Reply): (n: Option<Notice>)
    ensures n == None <==> reply.Accepted? && (isLogin || reply.hasSession)
    ensures n == Some(ConfirmationSent) <==> reply.Accepted? && !isLogin && !reply.hasSession
    ensures reply.Rejected? ==> n == Some(FailureNotice(Classify(reply.error)))
  {
    match reply
    case Rejected(e) => Some(FailureNotice(Classify(e)))
    case Accepted(hasSession) => if !isLogin && !hasSession then Some(ConfirmationSent) else None
  }

  /** The cooldown a reply leaves: a full minute after a rate-limit failure, else as it was. */
  function CooldownAfter(reply: Reply, c: nat): (r: nat)
    ensures r == CooldownSeconds <==> (reply.Rejected? && IsRateLimit(reply.error)) || c == CooldownSeconds
    ensures r != c ==> reply.Rejected? && Classify(reply.error) == RateLimited
  {
    if reply.Rejected? && IsRateLimit(reply.error) then CooldownSeconds else c
  }

  /** The Auth component's state. */
  class AuthForm {
    var loading: bool
    var email: string
    var password: string
    var isLogin: bool
    var error: Option<Notice>
    var cooldown: nat

    /** While a submission is in flight the banner stays cleared: nothing but the reply sets it. */
    ghost predicate Valid()
      reads this
    {
      loading ==> error == None
    }

    constructor ()
      ensures Valid()
      ensures !loading && email == "" && password == "" && isLogin && error == None && cooldown == 0
    {
      loading, email, password, isLogin, error, cooldown := false, "", "", true, None, 0;
    }

    /** The inputs are disabled while a submission is in flight or the cooldown runs. */
    predicate InputsDisabled()
      reads this
    {
      loading || cooldown > 0
    }

    /** The submit button is disabled exactly in these cases. */
    predicate SubmitDisabled()
      reads this
    {
      SubmitBlocked(loading, email, password, cooldown)
    }

    /** Typing into the e-mail field (ignored while it is disabled). */
    method EditEmail(s: string)
      requires Valid()
      modifies this
      ensures Valid()
      ensures email == if old(InputsDisabled()) then old(email) else s
      ensures loading == old(loading) && password == old(password) && isLogin == old(isLogin)
      ensures error == old(error) && cooldown == old(cooldown)
    {
      if !(loading || cooldown > 0) {
        email := s;
      }
    }

    /** Typing into the password field (ignored while it is disabled). */
    method EditPassword(s: string)
      requires Valid()
      modifies this
      ensures Valid()
      ensures password == if old(InputsDisabled()) then old(password) else s
      ensures loading == old(loading) && email == old(email) && isLogin == old(isLogin)
      ensures error == old(error) && cooldown == old(cooldown)
    {
      if !(loading || cooldown > 0) {
        password := s;
      }
    }

    /** One firing of the countdown timer. */
    method Tick()
      requires Valid()
      modifies this
      ensures Valid()
      ensures cooldown == Countdown(old(cooldown))
      ensures loading == old(loading) && email == old(email) && password == old(password)
      ensures isLogin == old(isLogin) && error == old(error)
    {
      if cooldown > 0 {
        cooldown := cooldown - 1;
      }
    }

    /** `handleAuth` up to the gateway call. While loading or cooling down nothing happens and no
        request is sent; otherwise `loading` is set, `error` cleared and the request returned. */
    method BeginSubmit(origin: string) returns (sent: Option<Request>)
      requires Valid()
      modifies this
      ensures Valid()
      ensures old(InputsDisabled()) ==> sent == None && unchanged(this)
      ensures !old(InputsDisabled()) ==>
                && sent == Some(RequestFor(isLogin, email, password, origin))
                && loading && error == None
      ensures email == old(email) && password == old(password) && isLogin == old(isLogin)
      ensures cooldown == old(cooldown)
    {
      if loading || cooldown > 0 {
        return None;
      }
      loading := true;
      error := None;
      sent := Some(RequestFor(isLogin, email, password, origin));
    }

    /** `handleAuth` after the gateway answered: the banner and cooldown the reply calls for,
        and `loading` cleared by the `finally` block. */
    method FinishSubmit(reply: Reply)
      requires Valid() && loading
      modifies this
      ensures Valid()
      ensures !loading
      ensures error == Settled(isLogin, reply)
      ensures cooldown == CooldownAfter(reply, old(cooldown))
      ensures reply.Rejected? && Classify(reply.error) == RateLimited ==> InputsDisabled() && SubmitDisabled()
      ensures email == old(email) && password == old(password) && isLogin == old(isLogin)
    {
      match reply {
        case Rejected(e) =>
          if IsRateLimit(e) {
            cooldown := CooldownSeconds;
          }
          error := Some(FailureNotice(Classify(e)));
        case Accepted(hasSession) =>
          if !isLogin && !hasSession {
            error := Some(ConfirmationSent);
          }
      }
      loading := false;
    }

    /** The "switch mode" link: flips sign-in/sign-up and clears the banner; disabled while loading. */
    method ToggleMode()
      requires Valid()
      modifies this
      ensures Valid()
      ensures old(loading) ==> unchanged(this)
      ensures !old(loading) ==> isLogin == !old(isLogin) && error == None
      ensures loading == old(loading) && email == old(email) && password == old(password)
      ensures cooldown == old(cooldown)
    {
      if !loading {
        isLogin := !isLogin;
        error := None;
      }
    }
  }

  /** A second submission while the first is in flight sends nothing and changes nothing. */
  method DoubleSubmit(form: AuthForm, origin: string) returns (first: Option<Request>, second: Option<Request>)
    requires form.Valid() && !form.InputsDisabled()
    modifies form
    ensures first == Some(RequestFor(form.isLogin, form.email, form.password, origin))
    ensures second == None && form.loading
  {
    first := form.BeginSubmit(origin);
    second := form.BeginSubmit(origin);
  }
}

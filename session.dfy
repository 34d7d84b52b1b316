/** The browser session of a job: `withBrowser(accountKey, fn)`.

    The session looks up the account, connects to the remote browser, opens
    a page, signs in with e-mail and password, answers a one-time-code
    prompt when one appears, runs `fn` on the page and disconnects. Every
    remote call is a step that may throw; an exception ends the session
    with that error at once, with no clean-up. The one exception caught is
    the first navigation wait after the password, which is allowed to fail.

    The remote browser is given by `Remote`: the steps that throw, with
    their messages, and whether the page shows a one-time-code field.
 */
module Session {
  import opened JsText
  import opened Http

  /** A credential set from the account configuration. */
  datatype Account = Account(email: JsString, password: JsString, totpSecret: Option<JsString>)

  /** The remote calls of a session, in the order the code makes them. */
  datatype Step =
    | Connect              // puppeteer.connect
    | NewPage              // browser.newPage
    | GotoSignin           // page.goto of the sign-in page
    | TypeEmail            // page.type of the e-mail
    | ClickIdentifierNext  // page.click("#identifierNext")
    | WaitPasswordField    // page.waitForSelector of the password field
    | TypePassword         // page.type of the password
    | ClickPasswordNext    // page.click("#passwordNext")
    | WaitFirstNavigation  // page.waitForNavigation with the 8 s timeout, errors caught
    | QueryOtpField        // page.$ of the one-time-code field
    | GenerateOtp          // authenticator.generate(totpSecret)
    | TypeOtp              // page.type of the code
    | PressEnter           // page.keyboard.press("Enter")
    | WaitOtpNavigation    // page.waitForNavigation after the code
    | RunFn                // fn(page, browser)
    | Disconnect           // browser.disconnect

  /** What the remote side does: which steps throw and with what message,
      and whether the one-time-code field is on the page. */
  datatype Remote = Remote(failures: map<Step, JsString>, otpFieldPresent: bool)

  const UnknownAccount: JsString := Js("Unknown accountKey")

  /** Connecting and opening a page. */
  const OpenSteps: seq<Step> := [Connect, NewPage]
  /** Opening the sign-in page and entering the e-mail. */
  const EmailSteps: seq<Step> := [GotoSignin, TypeEmail, ClickIdentifierNext]
  /** Waiting for the password field and entering the password. */
  const PasswordSteps: seq<Step> := [WaitPasswordField, TypePassword, ClickPasswordNext]
  /** Waiting for the page after the password and looking for a code field. */
  const PromptSteps: seq<Step> := [WaitFirstNavigation, QueryOtpField]
  /** Answering the code prompt. */
  const OtpSteps: seq<Step> := [GenerateOtp, TypeOtp, PressEnter, WaitOtpNavigation]
  /** Running `fn` and disconnecting. */
  const FinishSteps: seq<Step> := [RunFn, Disconnect]

  /** Everything up to and including the look for the code field. */
  const LoginSteps: seq<Step> := OpenSteps + (EmailSteps + (PasswordSteps + PromptSteps))

  /** A step whose exception ends the session. */
  predicate Fatal(remote: Remote, s: Step)
    ensures Fatal(remote, s) ==> s in remote.failures
    ensures s == WaitFirstNavigation ==> !Fatal(remote, s)
  {
    s in remote.failures && s != WaitFirstNavigation
  }

  /** A code is asked for and the account has no secret to answer it. */
  predicate TwoFactorBlocked(account: Account, remote: Remote) {
    remote.otpFieldPresent && !Truthy(account.totpSecret)
  }

  /** The steps a session for `account` goes through when nothing throws. */
  function Plan(account: Account, remote: Remote): (r: seq<Step>)
    ensures LoginSteps <= r && |r| > |LoginSteps|
  {
    LoginSteps + PlanAfterLogin(account, remote)
  }

  /** What follows sign-in: `fn` and the disconnect, after answering the
      code prompt if there is one; only the disconnect when a code is asked
      for and there is no secret. */
  function PlanAfterLogin(account: Account, remote: Remote): (r: seq<Step>)
    ensures r != [] && r[|r| - 1] == Disconnect
    ensures RunFn in r <==> !TwoFactorBlocked(account, remote)
    ensures GenerateOtp in r <==> remote.otpFieldPresent && Truthy(account.totpSecret)
  {
    if !remote.otpFieldPresent then FinishSteps
    else if Truthy(account.totpSecret) then OtpSteps + FinishSteps
    else [Disconnect]
  }

  /** The steps a call sequence actually makes: every step up to and
      including the first fatal one. */
  function Run(steps: seq<Step>, remote: Remote): seq<Step> {
    if steps == [] then []
    else if Fatal(remote, steps[0]) then [steps[0]]
    else [steps[0]] + Run(steps[1..], remote)
  }

  /** The steps a session makes: none for an unknown account, otherwise
      its plan up to the first step that throws. */
  function SessionTrace(accounts: map<JsString, Account>, key: JsString, remote: Remote): seq<Step> {
    if key !in accounts then [] else Run(Plan(accounts[key], remote), remote)
  }

  /** How a session ends. */
  function SessionOutcome<R>(accounts: map<JsString, Account>, key: JsString, remote: Remote, fnResult: R): Outcome<R> {
    if key !in accounts then Failed(UnknownAccount)
    else match RunError(LoginSteps, remote)
      case Some(message) => Failed(message)
      case None => AfterLoginOutcome(accounts[key], remote, fnResult)
  }

  /** How a session ends once sign-in got through. */
  function AfterLoginOutcome<R>(account: Account, remote: Remote, fnResult: R): Outcome<R> {
    match RunError(PlanAfterLogin(account, remote), remote)
    case Some(message) => Failed(message)
    case None => if TwoFactorBlocked(account, remote) then Failed(RequiresTwoFactor) else Done(fnResult)
  }

  /** The error a run of `steps` ends with, if one of them throws. */
  function RunError(steps: seq<Step>, remote: Remote): Option<JsString> {
    if steps == [] then None
    else if Fatal(remote, steps[0]) then Some(remote.failures[steps[0]])
    else RunError(steps[1..], remote)
  }

  /** `puppeteer.connect` and `browser.newPage`. */
  method OpenBrowser(remote: Remote) returns (trace: seq<Step>, error: Option<JsString>)
    ensures trace == Run(OpenSteps, remote)
    ensures error == RunError(OpenSteps, remote)
  {
    ghost var whole, werror := Run(OpenSteps, remote), RunError(OpenSteps, remote);
    trace := [];
    assert OpenSteps[0..] == OpenSteps;
    Advance(whole, werror, OpenSteps, 0, trace, remote);
    trace := trace + [Connect];
    if Fatal(remote, Connect) { return trace, Some(remote.failures[Connect]); }
    Advance(whole, werror, OpenSteps, 1, trace, remote);
    trace := trace + [NewPage];
    if Fatal(remote, NewPage) { return trace, Some(remote.failures[NewPage]); }
    assert OpenSteps[2..] == [];
    return trace, None;
  }

  /** Open the sign-in page, type the e-mail and go on. */
  method EnterEmail(remote: Remote) returns (trace: seq<Step>, error: Option<JsString>)
    ensures trace == Run(EmailSteps, remote)
    ensures error == RunError(EmailSteps, remote)
  {
    ghost var whole, werror := Run(EmailSteps, remote), RunError(EmailSteps, remote);
    trace := [];
    assert EmailSteps[0..] == EmailSteps;
    Advance(whole, werror, EmailSteps, 0, trace, remote);
    trace := trace + [GotoSignin];
    if Fatal(remote, GotoSignin) { return trace, Some(remote.failures[GotoSignin]); }
    Advance(whole, werror, EmailSteps, 1, trace, remote);
    trace := trace + [TypeEmail];
    if Fatal(remote, TypeEmail) { return trace, Some(remote.failures[TypeEmail]); }
    Advance(whole, werror, EmailSteps, 2, trace, remote);
    trace := trace + [ClickIdentifierNext];
    if Fatal(remote, ClickIdentifierNext) { return trace, Some(remote.failures[ClickIdentifierNext]); }
    assert EmailSteps[3..] == [];
    return trace, None;
  }

  /** Wait for the password field, type the password and go on. */
  method EnterPassword(remote: Remote) returns (trace: seq<Step>, error: Option<JsString>)
    ensures trace == Run(PasswordSteps, remote)
    ensures error == RunError(PasswordSteps, remote)
  {
    ghost var whole, werror := Run(PasswordSteps, remote), RunError(PasswordSteps, remote);
    trace := [];
    assert PasswordSteps[0..] == PasswordSteps;
    Advance(whole, werror, PasswordSteps, 0, trace, remote);
    trace := trace + [WaitPasswordField];
    if Fatal(remote, WaitPasswordField) { return trace, Some(remote.failures[WaitPasswordField]); }
    Advance(whole, werror, PasswordSteps, 1, trace, remote);
    trace := trace + [TypePassword];
    if Fatal(remote, TypePassword) { return trace, Some(remote.failures[TypePassword]); }
    Advance(whole, werror, PasswordSteps, 2, trace, remote);
    trace := trace + [ClickPasswordNext];
    if Fatal(remote, ClickPasswordNext) { return trace, Some(remote.failures[ClickPasswordNext]); }
    assert PasswordSteps[3..] == [];
    return trace, None;
  }

  /** Wait for the page after the password, then look for the
      one-time-code field; an error of the wait is caught. */
  method CheckForPrompt(remote: Remote) returns (trace: seq<Step>, error: Option<JsString>)
    ensures trace == Run(PromptSteps, remote)
    ensures error == RunError(PromptSteps, remote)
  {
    ghost var whole, werror := Run(PromptSteps, remote), RunError(PromptSteps, remote);
    trace := [];
    assert PromptSteps[0..] == PromptSteps;
    // A failure of this wait is caught and ignored.
    Advance(whole, werror, PromptSteps, 0, trace, remote);
    trace := trace + [WaitFirstNavigation];
    Advance(whole, werror, PromptSteps, 1, trace, remote);
    trace := trace + [QueryOtpField];
    if Fatal(remote, QueryOtpField) { return trace, Some(remote.failures[QueryOtpField]); }
    assert PromptSteps[2..] == [];
    return trace, None;
  }

  /** Generate the code from the secret, type it, press Enter and wait
      for the navigation. */
  method AnswerPrompt(remote: Remote) returns (trace: seq<Step>, error: Option<JsString>)
    ensures trace == Run(OtpSteps, remote)
    ensures error == RunError(OtpSteps, remote)
  {
    ghost var whole, werror := Run(OtpSteps, remote), RunError(OtpSteps, remote);
    trace := [];
    assert OtpSteps[0..] == OtpSteps;
    Advance(whole, werror, OtpSteps, 0, trace, remote);
    trace := trace + [GenerateOtp];
    if Fatal(remote, GenerateOtp) { return trace, Some(remote.failures[GenerateOtp]); }
    Advance(whole, werror, OtpSteps, 1, trace, remote);
    trace := trace + [TypeOtp];
    if Fatal(remote, TypeOtp) { return trace, Some(remote.failures[TypeOtp]); }
    Advance(whole, werror, OtpSteps, 2, trace, remote);
    trace := trace + [PressEnter];
    if Fatal(remote, PressEnter) { return trace, Some(remote.failures[PressEnter]); }
    Advance(whole, werror, OtpSteps, 3, trace, remote);
    trace := trace + [WaitOtpNavigation];
    if Fatal(remote, WaitOtpNavigation) { return trace, Some(remote.failures[WaitOtpNavigation]); }
    assert OtpSteps[4..] == [];
    return trace, None;
  }

  /** Run `fn` on the page, then disconnect. */
  method Finish(remote: Remote) returns (trace: seq<Step>, error: Option<JsString>)
    ensures trace == Run(FinishSteps, remote)
    ensures error == RunError(FinishSteps, remote)
  {
    ghost var whole, werror := Run(FinishSteps, remote), RunError(FinishSteps, remote);
    trace := [];
    assert FinishSteps[0..] == FinishSteps;
    Advance(whole, werror, FinishSteps, 0, trace, remote);
    trace := trace + [RunFn];
    if Fatal(remote, RunFn) { return trace, Some(remote.failures[RunFn]); }
    Advance(whole, werror, FinishSteps, 1, trace, remote);
    trace := trace + [Disconnect];
    if Fatal(remote, Disconnect) { return trace, Some(remote.failures[Disconnect]); }
    assert FinishSteps[2..] == [];
    return trace, None;
  }

  /** Connecting, signing in and looking for the code prompt. */
  method SignIn(remote: Remote) returns (trace: seq<Step>, error: Option<JsString>)
    ensures trace == Run(LoginSteps, remote)
    ensures error == RunError(LoginSteps, remote)
  {
    var part;
    trace, error := OpenBrowser(remote);
    RunAppend(OpenSteps, EmailSteps + (PasswordSteps + PromptSteps), remote);
    if error.Some? { return; }

    part, error := EnterEmail(remote);
    RunAppend(EmailSteps, PasswordSteps + PromptSteps, remote);
    trace := trace + part;
    if error.Some? { return; }

    part, error := EnterPassword(remote);
    RunAppend(PasswordSteps, PromptSteps, remote);
    trace := trace + part;
    if error.Some? { return; }

    part, error := CheckForPrompt(remote);
    trace := trace + part;
  }

  /** What follows sign-in: answering the code prompt when there is one
      and a secret for it, then `fn` and the disconnect; with a prompt and
      no secret, only the disconnect and the "REQUIRES_2FA" error. */
  method AfterSignIn<R>(account: Account, remote: Remote, fnResult: R)
    returns (outcome: Outcome<R>, trace: seq<Step>)
    ensures trace == Run(PlanAfterLogin(account, remote), remote)
    ensures outcome == AfterLoginOutcome(account, remote, fnResult)
  {
    var part, error;
    trace := [];
    if remote.otpFieldPresent {
      if Truthy(account.totpSecret) {
        trace, error := AnswerPrompt(remote);
        RunAppend(OtpSteps, FinishSteps, remote);
        if error.Some? { return Failed(error.value), trace; }
      } else {
        assert [Disconnect][1..] == [];
        trace := [Disconnect];
        if Fatal(remote, Disconnect) { return Failed(remote.failures[Disconnect]), trace; }
        assert RunError(PlanAfterLogin(account, remote), remote) == None;
        return Failed(RequiresTwoFactor), trace;
      }
    }
    part, error := Finish(remote);
    trace := trace + part;
    if error.Some? { return Failed(error.value), trace; }
    return Done(fnResult), trace;
  }

  /** `withBrowser(accountKey, fn)`, where `fn` returns `fnResult` unless
      `RunFn` is one of the failing steps. */
  method WithBrowser<R>(accounts: map<JsString, Account>, key: JsString, remote: Remote, fnResult: R)
    returns (outcome: Outcome<R>, trace: seq<Step>)
    ensures trace == SessionTrace(accounts, key, remote)
    ensures outcome == SessionOutcome(accounts, key, remote, fnResult)
  {
    if key !in accounts {
      return Failed(UnknownAccount), [];
    }
    var account := accounts[key];
    var error, rest;
    trace, error := SignIn(remote);
    RunAppend(LoginSteps, PlanAfterLogin(account, remote), remote);
    if error.Some? { return Failed(error.value), trace; }
    outcome, rest := AfterSignIn(account, remote, fnResult);
    trace := trace + rest;
  }

  // ---- Properties of sessions ----

  /** One step of a run: if the first `k` steps made `done`, step `k` is
      made next and the run either ends there or goes on with step `k + 1`. */
  lemma Advance(whole: seq<Step>, error: Option<JsString>, steps: seq<Step>, k: nat, done: seq<Step>, remote: Remote)
    requires k < |steps|
    requires whole == done + Run(steps[k..], remote) && error == RunError(steps[k..], remote)
    ensures Fatal(remote, steps[k]) ==> whole == done + [steps[k]] && error == Some(remote.failures[steps[k]])
    ensures !Fatal(remote, steps[k]) ==>
              whole == (done + [steps[k]]) + Run(steps[k + 1..], remote) && error == RunError(steps[k + 1..], remote)
  {
    assert steps[k..][0] == steps[k];
    assert steps[k..][1..] == steps[k + 1..];
  }

  /** What `Run` yields: a prefix of the steps, non-empty when there is a
      step, in which only the last step may be fatal, and which stops short
      of the end only at a fatal step; the run's error is that of its last
      step when that step is fatal, and there is none otherwise. */
  lemma {:induction false} RunStopsAtFirstFatalStep(steps: seq<Step>, remote: Remote)
    ensures var t := Run(steps, remote);
            && t <= steps
            && (steps != [] ==> t != [])
            && (forall j :: 0 <= j < |t| - 1 ==> !Fatal(remote, t[j]))
            && (|t| < |steps| ==> Fatal(remote, t[|t| - 1]))
            && RunError(steps, remote) ==
               if t != [] && Fatal(remote, t[|t| - 1]) then Some(remote.failures[t[|t| - 1]]) else None
  {
    if steps != [] && !Fatal(remote, steps[0]) {
      RunStopsAtFirstFatalStep(steps[1..], remote);
      var t := Run(steps, remote);
      assert t == [steps[0]] + Run(steps[1..], remote);
      forall j | 0 <= j < |t| - 1
        ensures !Fatal(remote, t[j])
      {
        if j > 0 { assert t[j] == Run(steps[1..], remote)[j - 1]; }
      }
      if Run(steps[1..], remote) != [] {
        assert t[|t| - 1] == Run(steps[1..], remote)[|t| - 2];
      }
    }
  }

  /** A run makes its steps in order, possibly stopping early. */
  lemma {:induction false} RunIsPrefix(steps: seq<Step>, remote: Remote)
    ensures Run(steps, remote) <= steps
  {
    if steps != [] && !Fatal(remote, steps[0]) {
      RunIsPrefix(steps[1..], remote);
    }
  }

  /** Conversely, a prefix with those properties is the one `Run` yields:
      the trace of a call sequence is determined by which steps throw. */
  lemma {:induction false} RunIsTheOnlySuchPrefix(steps: seq<Step>, remote: Remote, t: seq<Step>)
    requires t <= steps
    requires steps != [] ==> t != []
    requires forall j :: 0 <= j < |t| - 1 ==> !Fatal(remote, t[j])
    requires |t| < |steps| ==> Fatal(remote, t[|t| - 1])
    ensures t == Run(steps, remote)
  {
    if steps != [] {
      assert t[0] == steps[0];
      if |t| == 1 {
        if !Fatal(remote, steps[0]) {
          assert |steps| == 1;
          assert steps[1..] == [];
        }
      } else {
        assert !Fatal(remote, t[0]);
        var t' := t[1..];
        assert t' <= steps[1..];
        forall j | 0 <= j < |t'| - 1
          ensures !Fatal(remote, t'[j])
        {
          assert t'[j] == t[j + 1];
        }
        if |t'| < |steps[1..]| {
          assert t'[|t'| - 1] == t[|t| - 1];
        }
        RunIsTheOnlySuchPrefix(steps[1..], remote, t');
        assert t == [t[0]] + t';
      }
    }
  }

  /** A run has no error exactly when none of its steps is fatal, and then
      it makes every step. */
  lemma {:induction false} RunWithoutFatalStep(steps: seq<Step>, remote: Remote)
    ensures RunError(steps, remote).None? <==> forall s :: s in steps ==> !Fatal(remote, s)
    ensures RunError(steps, remote).None? ==> Run(steps, remote) == steps
  {
    if steps != [] {
      assert steps[0] in steps;
      assert forall s :: s in steps[1..] ==> s in steps;
      RunWithoutFatalStep(steps[1..], remote);
      if !Fatal(remote, steps[0]) {
        assert forall s :: s in steps ==> s == steps[0] || s in steps[1..];
      }
    }
  }

  /** Running `a + b`: when `a` runs without error, `b` runs after it;
      otherwise the run ends inside `a`. */
  lemma {:induction false} RunAppend(a: seq<Step>, b: seq<Step>, remote: Remote)
    ensures RunError(a, remote).None? ==>
              Run(a + b, remote) == Run(a, remote) + Run(b, remote) && RunError(a + b, remote) == RunError(b, remote)
    ensures RunError(a, remote).Some? ==>
              Run(a + b, remote) == Run(a, remote) && RunError(a + b, remote) == RunError(a, remote)
  {
    if a == [] {
      assert a + b == b;
    } else {
      assert (a + b)[0] == a[0];
      assert (a + b)[1..] == a[1..] + b;
      RunAppend(a[1..], b, remote);
      if !Fatal(remote, a[0]) && RunError(a, remote).None? {
        calc {
          Run(a + b, remote);
          [a[0]] + Run(a[1..] + b, remote);
          [a[0]] + (Run(a[1..], remote) + Run(b, remote));
          ([a[0]] + Run(a[1..], remote)) + Run(b, remote);
        }
      }
    }
  }

  /** What follows sign-in disconnects once, at its end, and runs `fn`
      once, just before, unless the code prompt cannot be answered. */
  lemma AfterLoginShape(account: Account, remote: Remote)
    ensures var tail := PlanAfterLogin(account, remote);
            && |tail| >= 1 && tail[|tail| - 1] == Disconnect
            && multiset(tail)[Disconnect] == 1
            && multiset(tail)[RunFn] == (if TwoFactorBlocked(account, remote) then 0 else 1)
            && (!TwoFactorBlocked(account, remote) ==> |tail| >= 2 && tail[|tail| - 2] == RunFn)
  {
    if remote.otpFieldPresent && Truthy(account.totpSecret) {
      var tail := OtpSteps + FinishSteps;
      assert Disconnect !in OtpSteps && RunFn !in OtpSteps;
      assert multiset(tail) == multiset(OtpSteps) + multiset(FinishSteps);
      assert tail[|tail| - 2] == FinishSteps[0] && tail[|tail| - 1] == FinishSteps[1];
    }
  }

  /** Every plan ends by disconnecting, just after running `fn` unless
      the code prompt cannot be answered. */
  lemma PlanEnd(account: Account, remote: Remote)
    ensures var plan := Plan(account, remote);
            && plan[|plan| - 1] == Disconnect
            && (!TwoFactorBlocked(account, remote) ==> plan[|plan| - 2] == RunFn)
  {
    var tail := PlanAfterLogin(account, remote);
    var plan := LoginSteps + tail;
    AfterLoginShape(account, remote);
    assert plan[|plan| - 1] == tail[|tail| - 1];
    if !TwoFactorBlocked(account, remote) {
      assert plan[|plan| - 2] == tail[|tail| - 2];
    }
  }

  /** Every plan disconnects once and runs `fn` once, unless the code
      prompt cannot be answered, when it does not run `fn` at all. */
  lemma PlanCounts(account: Account, remote: Remote)
    ensures multiset(Plan(account, remote))[Disconnect] == 1
    ensures multiset(Plan(account, remote))[RunFn] == if TwoFactorBlocked(account, remote) then 0 else 1
  {
    var tail := PlanAfterLogin(account, remote);
    AfterLoginShape(account, remote);
    SignInNeitherRunsFnNorDisconnects();
    assert multiset(LoginSteps + tail) == multiset(LoginSteps) + multiset(tail);
  }

  /** Sign-in neither runs `fn` nor disconnects. */
  lemma SignInNeitherRunsFnNorDisconnects()
    ensures multiset(LoginSteps)[RunFn] == 0 && multiset(LoginSteps)[Disconnect] == 0
  {
    assert Disconnect !in LoginSteps && RunFn !in LoginSteps;
  }

  lemma PrefixMultiset<T>(s: seq<T>, t: seq<T>)
    requires t <= s
    ensures multiset(t) <= multiset(s)
  {
    assert s == t + s[|t|..];
  }

  /** An unknown account fails with "Unknown accountKey" before any
      connection is made; a known one always starts by connecting. */
  lemma UnknownAccountNeverConnects(accounts: map<JsString, Account>, key: JsString, remote: Remote)
    ensures key !in accounts <==> Connect !in SessionTrace(accounts, key, remote)
    ensures key !in accounts ==> SessionOutcome(accounts, key, remote, ()) == Failed(UnknownAccount)
    ensures key in accounts ==> SessionTrace(accounts, key, remote)[0] == Connect
  {
    if key in accounts {
      var plan := Plan(accounts[key], remote);
      RunStopsAtFirstFatalStep(plan, remote);
      assert SessionTrace(accounts, key, remote)[0] == plan[0] == Connect;
    }
  }

  /** A session disconnects at most once and runs `fn` at most once,
      whatever throws. */
  lemma DisconnectsAtMostOnce(accounts: map<JsString, Account>, key: JsString, remote: Remote)
    ensures multiset(SessionTrace(accounts, key, remote))[Disconnect] <= 1
    ensures multiset(SessionTrace(accounts, key, remote))[RunFn] <= 1
  {
    if key in accounts {
      var plan := Plan(accounts[key], remote);
      RunIsPrefix(plan, remote);
      PrefixMultiset(plan, Run(plan, remote));
      PlanCounts(accounts[key], remote);
    }
  }

  /** A session succeeds exactly when the account is known, no step of
      its plan throws and the code prompt, if any, can be answered; it then
      returns `fn`'s result. */
  lemma SuccessIsACompleteRun<R>(accounts: map<JsString, Account>, key: JsString, remote: Remote, fnResult: R)
    ensures SessionOutcome(accounts, key, remote, fnResult).Done? <==>
              key in accounts && RunError(Plan(accounts[key], remote), remote).None?
              && !TwoFactorBlocked(accounts[key], remote)
    ensures SessionOutcome(accounts, key, remote, fnResult).Done? ==>
              SessionOutcome(accounts, key, remote, fnResult) == Done(fnResult)
  {
    if key in accounts {
      RunAppend(LoginSteps, PlanAfterLogin(accounts[key], remote), remote);
    }
  }

  /** A successful session made every step of its plan, ran `fn` exactly
      once, disconnected exactly once and only after `fn` returned. */
  lemma SuccessRunsFnThenDisconnectsOnce<R>(accounts: map<JsString, Account>, key: JsString, remote: Remote, fnResult: R)
    requires SessionOutcome(accounts, key, remote, fnResult).Done?
    ensures var trace := SessionTrace(accounts, key, remote);
            && key in accounts && trace == Plan(accounts[key], remote)
            && |trace| >= 2 && trace[|trace| - 2] == RunFn && trace[|trace| - 1] == Disconnect
            && multiset(trace)[Disconnect] == 1 && multiset(trace)[RunFn] == 1
            && forall s :: s in trace ==> !Fatal(remote, s)
  {
    SuccessIsACompleteRun(accounts, key, remote, fnResult);
    var plan := Plan(accounts[key], remote);
    RunWithoutFatalStep(plan, remote);
    assert SessionTrace(accounts, key, remote) == plan;
    PlanEnd(accounts[key], remote);
    PlanCounts(accounts[key], remote);
  }

  /** No code field on the page: once signed in, `fn` runs straight away,
      and if nothing throws the session succeeds. */
  lemma NoOtpFieldGoesStraightToFn<R>(accounts: map<JsString, Account>, key: JsString, remote: Remote, fnResult: R)
    requires key in accounts && !remote.otpFieldPresent
    requires forall s :: s in remote.failures ==> s == WaitFirstNavigation
    ensures SessionTrace(accounts, key, remote) == LoginSteps + FinishSteps
    ensures SessionOutcome(accounts, key, remote, fnResult) == Done(fnResult)
  {
    RunWithoutFatalStep(LoginSteps, remote);
    RunWithoutFatalStep(FinishSteps, remote);
    RunWithoutFatalStep(Plan(accounts[key], remote), remote);
  }

  /** A code field and a secret: the code is generated, typed and submitted
      with Enter before `fn` runs; if nothing throws, the session succeeds. */
  lemma OtpWithSecretAnswersPrompt<R>(accounts: map<JsString, Account>, key: JsString, remote: Remote, fnResult: R)
    requires key in accounts && remote.otpFieldPresent && Truthy(accounts[key].totpSecret)
    requires forall s :: s in remote.failures ==> s == WaitFirstNavigation
    ensures SessionTrace(accounts, key, remote) == LoginSteps + (OtpSteps + FinishSteps)
    ensures SessionOutcome(accounts, key, remote, fnResult) == Done(fnResult)
  {
    RunWithoutFatalStep(LoginSteps, remote);
    RunWithoutFatalStep(OtpSteps + FinishSteps, remote);
    RunWithoutFatalStep(Plan(accounts[key], remote), remote);
  }

  /** A code field and no secret: `fn` never runs and the session fails. */
  lemma OtpWithoutSecretNeverRunsFn<R>(accounts: map<JsString, Account>, key: JsString, remote: Remote, fnResult: R)
    requires key in accounts && TwoFactorBlocked(accounts[key], remote)
    ensures RunFn !in SessionTrace(accounts, key, remote)
    ensures SessionOutcome(accounts, key, remote, fnResult).Failed?
  {
    var plan := Plan(accounts[key], remote);
    RunIsPrefix(plan, remote);
    PrefixMultiset(plan, Run(plan, remote));
    PlanCounts(accounts[key], remote);
    assert multiset(SessionTrace(accounts, key, remote))[RunFn] == 0;
    assert AfterLoginOutcome(accounts[key], remote, fnResult).Failed?;
  }

  /** A code field and no secret, once sign-in got through: the session
      disconnects and fails with "REQUIRES_2FA", or with the error of the
      disconnect itself. */
  lemma OtpWithoutSecretRequiresTwoFactor<R>(accounts: map<JsString, Account>, key: JsString, remote: Remote, fnResult: R)
    requires key in accounts && TwoFactorBlocked(accounts[key], remote)
    requires RunError(LoginSteps, remote).None?
    ensures SessionTrace(accounts, key, remote) == LoginSteps + [Disconnect]
    ensures SessionOutcome(accounts, key, remote, fnResult) ==
            if Fatal(remote, Disconnect) then Failed(remote.failures[Disconnect]) else Failed(RequiresTwoFactor)
  {
    RunAppend(LoginSteps, [Disconnect], remote);
    RunWithoutFatalStep(LoginSteps, remote);
    assert [Disconnect][1..] == [];
  }

  /** Whether the first navigation wait after the password throws makes no
      difference to the session. */
  lemma FirstNavigationErrorIsSwallowed<R>(accounts: map<JsString, Account>, key: JsString, remote: Remote,
                                           message: JsString, fnResult: R)
    ensures var thrown := remote.(failures := remote.failures[WaitFirstNavigation := message]);
            && SessionTrace(accounts, key, remote) == SessionTrace(accounts, key, thrown)
            && SessionOutcome(accounts, key, remote, fnResult) == SessionOutcome(accounts, key, thrown, fnResult)
  {
    var thrown := remote.(failures := remote.failures[WaitFirstNavigation := message]);
    if key in accounts {
      var account := accounts[key];
      assert PlanAfterLogin(account, remote) == PlanAfterLogin(account, thrown);
      RunSameFatalSteps(LoginSteps, remote, thrown);
      RunSameFatalSteps(PlanAfterLogin(account, remote), remote, thrown);
      RunSameFatalSteps(Plan(account, remote), remote, thrown);
    }
  }

  /** Two remotes that throw at the same fatal steps with the same messages
      give the same run. */
  lemma {:induction false} RunSameFatalSteps(steps: seq<Step>, r1: Remote, r2: Remote)
    requires forall s :: Fatal(r1, s) <==> Fatal(r2, s)
    requires forall s :: Fatal(r1, s) && Fatal(r2, s) ==> r1.failures[s] == r2.failures[s]
    ensures Run(steps, r1) == Run(steps, r2)
    ensures RunError(steps, r1) == RunError(steps, r2)
  {
    if steps != [] {
      RunSameFatalSteps(steps[1..], r1, r2);
    }
  }
}

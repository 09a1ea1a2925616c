/**
 * The session record and the credential check of `/login` and `/logout`: a username
 * allowlist, one shared password, and a per-session counter of failed attempts that
 * sends the visitor away on the third failure.
 */
module Auth {
  import opened Wrappers
  import opened Text
  import opened Http

  /** the usernames that may log in, after normalisation */
  const ValidUsers: seq<string> := ["rafy", "ryan"]
  /** the password used when `DASHBOARD_PASSWORD` is not configured */
  const DefaultPassword := "benji2026"
  /** where the third failed attempt sends the visitor */
  const ExternalUrl := "https://raom.kr"
  const MaxAttempts := 3

  /**
   * The keys of the Flask session the server uses. An absent `authenticated` key reads as
   * false, an absent `login_attempts` key as 0; `permanent` is Flask's `session.permanent`.
   */
  datatype SessionData = SessionData(
    authenticated: bool,
    username: Option<string>,
    loginAttempts: Option<nat>,
    permanent: bool)

  /** a session without any key: a first visit, or one after `session.clear()` */
  const EmptySession := SessionData(false, None, None, false)

  /** `is_authenticated()`: a session without the key reads as not logged in */
  predicate IsAuthenticated(s: SessionData)
    ensures s == EmptySession ==> !IsAuthenticated(s)
  {
    s.authenticated
  }

  /** `session.get('login_attempts', 0)` */
  function Attempts(s: SessionData): nat {
    s.loginAttempts.GetOr(0)
  }

  /** The counter is stored only between failures: absent, 1 or 2. */
  predicate CounterInvariant(s: SessionData) {
    s.loginAttempts == None || s.loginAttempts == Some(1) || s.loginAttempts == Some(2)
  }

  /** A request to `/login`: a GET shows the form, a POST submits the form's two fields (each may be missing). */
  datatype LoginRequest = ShowForm | Submit(username: Option<string>, password: Option<string>)

  /**
   * `.lower().strip()` applied to the submitted username: the lower-cased name with its
   * surrounding whitespace cut off, so it holds no upper-case letter and has no blank ends.
   */
  function NormalizeUsername(raw: string): (u: string)
    ensures exists i :: StripsTo(Lower(raw), i, u)
    ensures |u| <= |raw|
    ensures forall k :: 0 <= k < |u| ==> !IsUpper(u[k])
    ensures u != [] ==> !IsSpace(u[0]) && !IsSpace(u[|u| - 1])
  {
    StripKeepsNoUpper(Lower(raw));
    Strip(Lower(raw))
  }

  /** the POST carries an allowlisted username (after normalisation) and exactly the password */
  predicate CredentialsValid(username: Option<string>, password: Option<string>, authPassword: string) {
    NormalizeUsername(username.GetOr("")) in ValidUsers && password.GetOr("") == authPassword
  }

  /** a POST that does not log in */
  predicate FailedSubmit(req: LoginRequest, authPassword: string) {
    req.Submit? && !CredentialsValid(req.username, req.password, authPassword)
  }

  /**
   * What the credential check makes of a request. A failure carries no detail: an unknown
   * user and a wrong password are the same outcome.
   */
  datatype Outcome = FormShown | LoggedIn(user: string) | Failed

  /** the credential check of `login()`: which of the three branches a request takes */
  function Classify(req: LoginRequest, authPassword: string): (o: Outcome)
    ensures o == FormShown <==> req.ShowForm?
    ensures o == Failed <==> FailedSubmit(req, authPassword)
    ensures o.LoggedIn? ==> o.user in ValidUsers && o.user == NormalizeUsername(req.username.GetOr(""))
  {
    match req
    case ShowForm => FormShown
    case Submit(username, password) =>
      if CredentialsValid(username, password, authPassword) then LoggedIn(NormalizeUsername(username.GetOr("")))
      else Failed
  }

  /** the session after a request, and the response to it */
  datatype Step = Step(session: SessionData, response: Response)

  /** What each branch of `login()` does to the session and answers. */
  function Transition(s: SessionData, o: Outcome): (r: Step)
    // showing the form leaves the session alone
    ensures o == FormShown ==> r == Step(s, LoginForm(false))
    // a success logs the user in for good and drops the counter
    ensures r.response == Redirect("/") <==> o.LoggedIn?
    ensures o.LoggedIn? ==> r.session == SessionData(true, Some(o.user), None, true)
    // a failure never changes who is logged in
    ensures o == Failed ==>
              r.session.authenticated == s.authenticated && r.session.username == s.username
              && r.session.permanent == s.permanent
    // the failure that brings the count to 3 sends the visitor away and drops the counter
    ensures r.response == Redirect(ExternalUrl) <==> o == Failed && Attempts(s) + 1 >= MaxAttempts
    ensures r.response == Redirect(ExternalUrl) ==> r.session.loginAttempts == None
    // an earlier failure shows the form with its error mark and stores the new count
    ensures r.response == LoginForm(true) <==> o == Failed && Attempts(s) + 1 < MaxAttempts
    ensures r.response == LoginForm(true) ==> r.session.loginAttempts == Some(Attempts(s) + 1)
    ensures CounterInvariant(s) ==> CounterInvariant(r.session)
  {
    match o
    case FormShown => Step(s, LoginForm(false))
    case LoggedIn(user) => Step(SessionData(true, Some(user), None, true), Redirect("/"))
    case Failed =>
      var attempts := Attempts(s) + 1;
      if attempts >= MaxAttempts then Step(s.(loginAttempts := None), Redirect(ExternalUrl))
      else Step(s.(loginAttempts := Some(attempts)), LoginForm(true))
  }

  /** What `login()` does to the session and answers, given the configured password. */
  function LoginStep(s: SessionData, req: LoginRequest, authPassword: string): (r: Step)
    ensures r.response == Redirect("/") <==> req.Submit? && CredentialsValid(req.username, req.password, authPassword)
    ensures r.response == Redirect("/") ==>
              r.session.authenticated && r.session.username.Some? && r.session.username.value in ValidUsers
  {
    Transition(s, Classify(req, authPassword))
  }

  /** What `logout()` leaves of the session: `session.clear()` removes every key. */
  function LogoutStep(s: SessionData): (r: SessionData)
    ensures !IsAuthenticated(r)
    ensures r.username == None && r.loginAttempts == None && !r.permanent
  {
    EmptySession
  }

  /** the session after `n` failed POSTs in a row */
  function AfterFailures(s: SessionData, n: nat): SessionData
  {
    if n == 0 then s else Transition(AfterFailures(s, n - 1), Failed).session
  }

  /** the session after a run of `/login` requests in order */
  function Replay(s: SessionData, reqs: seq<LoginRequest>, authPassword: string): SessionData
    decreases |reqs|
  {
    if reqs == [] then s else Replay(LoginStep(s, reqs[0], authPassword).session, reqs[1..], authPassword)
  }

  /** No run of requests can leave a counter other than absent, 1 or 2. */
  lemma {:induction false} ReplayKeepsCounterInvariant(s: SessionData, reqs: seq<LoginRequest>, authPassword: string)
    requires CounterInvariant(s)
    ensures CounterInvariant(Replay(s, reqs, authPassword))
    decreases |reqs|
  {
    if reqs != [] {
      ReplayKeepsCounterInvariant(LoginStep(s, reqs[0], authPassword).session, reqs[1..], authPassword);
    }
  }

  lemma CountStep(n: nat)
    ensures (n + 1) % MaxAttempts == if n % MaxAttempts == 2 then 0 else n % MaxAttempts + 1
  {
  }

  /**
   * After `n` failures in a row the counter is the number of failures so far modulo 3,
   * and the login state is what it was.
   */
  lemma {:induction false} FailureRunCount(s: SessionData, n: nat)
    requires CounterInvariant(s)
    ensures Attempts(AfterFailures(s, n)) == (Attempts(s) + n) % MaxAttempts
    ensures CounterInvariant(AfterFailures(s, n))
    ensures AfterFailures(s, n).authenticated == s.authenticated
    ensures AfterFailures(s, n).username == s.username
  {
    if n > 0 {
      FailureRunCount(s, n - 1);
      CountStep(Attempts(s) + n - 1);
    }
  }

  /**
   * The n-th failure in a row sends the visitor away exactly when the count reaches a
   * multiple of 3; every other failure shows the form with its error mark.
   */
  lemma NthFailureResponse(s: SessionData, n: nat)
    requires CounterInvariant(s) && n > 0
    ensures Transition(AfterFailures(s, n - 1), Failed).response
              == if (Attempts(s) + n) % MaxAttempts == 0 then Redirect(ExternalUrl) else LoginForm(true)
  {
    FailureRunCount(s, n - 1);
    CountStep(Attempts(s) + n - 1);
  }

  /** Every failed POST is the same transition, whatever was wrong with it. */
  lemma FailedRequestsAreFailures(s: SessionData, reqs: seq<LoginRequest>, authPassword: string)
    requires forall i :: 0 <= i < |reqs| ==> FailedSubmit(reqs[i], authPassword)
    ensures Replay(s, reqs, authPassword) == AfterFailures(s, |reqs|)
    decreases |reqs|
  {
    if reqs != [] {
      var last := |reqs| - 1;
      ReplayLast(s, reqs, authPassword);
      FailedRequestsAreFailures(s, reqs[..last], authPassword);
    }
  }

  /** replaying a run is replaying all but its last request, then that one */
  lemma {:induction false} ReplayLast(s: SessionData, reqs: seq<LoginRequest>, authPassword: string)
    requires reqs != []
    ensures Replay(s, reqs, authPassword)
              == LoginStep(Replay(s, reqs[..|reqs| - 1], authPassword), reqs[|reqs| - 1], authPassword).session
    decreases |reqs|
  {
    if |reqs| > 1 {
      ReplayLast(LoginStep(s, reqs[0], authPassword).session, reqs[1..], authPassword);
      assert reqs[1..][..|reqs| - 2] == reqs[..|reqs| - 1][1..];
    }
  }

  /** From a fresh session: error page, error page, then away to the external site, with the counter gone. */
  lemma ThirdFailureLeaves(r1: LoginRequest, r2: LoginRequest, r3: LoginRequest, authPassword: string)
    requires FailedSubmit(r1, authPassword) && FailedSubmit(r2, authPassword) && FailedSubmit(r3, authPassword)
    ensures var s1 := LoginStep(EmptySession, r1, authPassword);
            var s2 := LoginStep(s1.session, r2, authPassword);
            var s3 := LoginStep(s2.session, r3, authPassword);
            s1.response == LoginForm(true) && s2.response == LoginForm(true)
            && s3.response == Redirect(ExternalUrl) && s3.session == EmptySession
  {
  }

  /** An unknown user and a wrong password are answered and counted identically. */
  lemma FailuresIndistinguishable(s: SessionData, r1: LoginRequest, r2: LoginRequest, authPassword: string)
    requires FailedSubmit(r1, authPassword) && FailedSubmit(r2, authPassword)
    ensures LoginStep(s, r1, authPassword) == LoginStep(s, r2, authPassword)
  {
  }

  /** Logging out twice leaves the same session as logging out once. */
  lemma LogoutIdempotent(s: SessionData)
    ensures LogoutStep(LogoutStep(s)) == LogoutStep(s)
  {
  }

  /**
   * Any spelling of an allowlisted name, in any letter case and with blanks around it, logs
   * in as the normalised name (` RAFY ` is one: see `NormalizeMixedCase`).
   */
  lemma NormalizedNameLogsIn(s: SessionData, raw: string, authPassword: string)
    requires NormalizeUsername(raw) in ValidUsers
    ensures LoginStep(s, Submit(Some(raw), Some(authPassword)), authPassword)
              == Step(SessionData(true, Some(NormalizeUsername(raw)), None, true), Redirect("/"))
  {
  }

  /** ` RAFY ` normalises to the allowlisted `rafy` */
  lemma NormalizeMixedCase()
    ensures NormalizeUsername(" RAFY ") == "rafy" && "rafy" in ValidUsers
  {
    LowerMixedCase();
    StripPadded();
  }

  lemma LowerMixedCase()
    ensures Lower(" RAFY ") == " rafy "
  {
    var low := Lower(" RAFY ");
    assert low[1] == LowerChar('R') && low[2] == LowerChar('A');
    assert low[3] == LowerChar('F') && low[4] == LowerChar('Y');
  }

  lemma StripPadded()
    ensures Strip(" rafy ") == "rafy"
  {
    TrimStartPadded();
    TrimEndPadded();
  }

  lemma TrimStartPadded()
    ensures TrimStart(" rafy ") == "rafy "
  {
    assert IsSpace(" rafy "[0]) && " rafy "[1..] == "rafy ";
    assert !IsSpace("rafy "[0]);
  }

  lemma TrimEndPadded()
    ensures TrimEnd("rafy ") == "rafy"
  {
    assert IsSpace("rafy "[4]) && "rafy "[..4] == "rafy";
    assert !IsSpace("rafy"[3]);
  }

  /**
   * The live session of one visitor, as the handlers mutate it in place.
   */
  class Session {
    var authenticated: bool
    var username: Option<string>
    var loginAttempts: Option<nat>
    var permanent: bool

    function Data(): SessionData
      reads this
    {
      SessionData(authenticated, username, loginAttempts, permanent)
    }

    /** a first request: the cookie holds no keys */
    constructor ()
      ensures Data() == EmptySession
    {
      authenticated, username, loginAttempts, permanent := false, None, None, false;
    }

    /** `login()`: normalise the submitted name, check both fields, then record the outcome */
    method Login(req: LoginRequest, authPassword: string) returns (resp: Response)
      modifies this
      ensures Step(Data(), resp) == LoginStep(old(Data()), req, authPassword)
    {
      if req.Submit? {
        var user := NormalizeUsername(req.username.GetOr(""));
        var password := req.password.GetOr("");
        if user in ValidUsers && password == authPassword {
          resp := RecordSuccess(user);
        } else {
          resp := RecordFailure();
        }
      } else {
        resp := LoginForm(false);
      }
    }

    /** the success branch of `login()`: drop the counter, make the session permanent, log the user in */
    method RecordSuccess(user: string) returns (resp: Response)
      modifies this
      ensures Step(Data(), resp) == Transition(old(Data()), LoggedIn(user))
    {
      loginAttempts := None;
      permanent := true;
      authenticated := true;
      username := Some(user);
      resp := Redirect("/");
    }

    /** the failure branch of `login()`: count the failure; the third one drops the counter and leaves */
    method RecordFailure() returns (resp: Response)
      modifies this
      ensures Step(Data(), resp) == Transition(old(Data()), Failed)
    {
      var attempts := loginAttempts.GetOr(0) + 1;
      loginAttempts := Some(attempts);
      if attempts >= MaxAttempts {
        loginAttempts := None;
        return Redirect(ExternalUrl);
      }
      return LoginForm(true);
    }

    /** `logout()`: clear every key and go back to the root */
    method Logout() returns (resp: Response)
      modifies this
      ensures Data() == LogoutStep(old(Data())) && resp == Redirect("/")
    {
      authenticated, username, loginAttempts, permanent := false, None, None, false;
      resp := Redirect("/");
    }
  }
}

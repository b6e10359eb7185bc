/** The login flow of `LinkedInAuthenticator`: open the site, check for an
    active session on the feed, and otherwise open the login page, type the
    credentials, submit, let the page settle and handle a security challenge.

    Each method of the class is proved against a function giving the trace of
    actions it produces on a stable connection; on a connection that drops,
    the method leaves the part of that trace that runs before the drop
    (`Browser.Ran`) and reports the WebDriverException by returning false. */
module Authentication {
  import opened Browser
  import opened PyStrings

  const HomeUrl: string := "https://www.linkedin.com"
  const FeedUrl: string := "https://www.linkedin.com/feed"
  const LoginUrl: string := "https://www.linkedin.com/login"
  const PageLoadSeconds: nat := 10    // wait_for_page_load's default bound
  const WaitSeconds: nat := 10        // every other short bounded wait
  const SettleSeconds: nat := 35      // the blind sleep after a credential attempt
  const ChallengeSeconds: nat := 300  // the wait for the user to clear a challenge
  const PostPrompt: string := "Start a post"

  /** `any(button.text.strip() == 'Start a post' for button in buttons)` */
  predicate AnyStartAPost(texts: seq<string>) {
    texts != [] && (Strip(texts[0]) == PostPrompt || AnyStartAPost(texts[1..]))
  }

  /** What `is_logged_in` returns once its wait has been answered. */
  predicate SessionActive(s: Script) {
    s.shareBox == Found && AnyStartAPost(s.shareBoxTexts)
  }

  /** `enter_credentials` lets NoSuchElementException escape: the username
      field appeared but the password field is not there. */
  predicate PasswordMissing(s: Script) {
    s.username == Found && s.passwordField == Absent
  }

  // The trace each method produces on a stable connection.

  function PageLoadActions(s: Script, timeout: nat): seq<Action> {
    [Await(DocumentComplete, timeout)]
    + (if s.pageLoad == Timeout then [Say(PageLoadTimedOut)] else [])
  }

  function IsLoggedInActions(s: Script): seq<Action> {
    [Get(FeedUrl)] + [Await(ShareBoxPresent, WaitSeconds)]
    + (if s.shareBox == Timeout then []
       else [FindElements(ShareBoxTrigger)]
            + (if AnyStartAPost(s.shareBoxTexts) then [Say(AlreadyLoggedIn)] else []))
  }

  function EnterCredentialsActions(s: Script, email: string, password: string): seq<Action> {
    [Await(UsernamePresent, WaitSeconds)]
    + (if s.username == Timeout then [Say(LoginFormNotFound)]
       else [SendKeys(UsernameField, email)] + [FindElement(PasswordField)]
            + (if s.passwordField == Present then [SendKeys(PasswordField, password)] else []))
  }

  function SubmitActions(s: Script): seq<Action> {
    [FindElement(SubmitButton)]
    + (if s.submitButton == Present then [Click(SubmitButton)] else [Say(LoginButtonNotFound)])
  }

  function SecurityCheckActions(s: Script): seq<Action> {
    [Await(UrlContains(ChallengeFragment), WaitSeconds)]
    + (if s.challengePage == Timeout then [Say(CheckNotCompleted)]
       else [Say(CheckpointDetected)] + [Await(UrlContains(FeedFragment), ChallengeSeconds)]
            + (if s.feedReturn == Timeout then [Say(CheckNotCompleted)] else [Say(CheckCompleted)]))
  }

  /** The credential attempt inside `handle_login`, from typing to the challenge. */
  function AttemptActions(s: Script, email: string, password: string): seq<Action> {
    EnterCredentialsActions(s, email, password)
    + (if PasswordMissing(s) then [Say(CouldNotLogIn)] else SubmitActions(s))
    + [Sleep(SettleSeconds)] + [CurrentUrl(AfterSettling)]
    + (if Contains(s.settledUrl, "challenge") then SecurityCheckActions(s) else [])
  }

  function HandleLoginActions(s: Script, email: string, password: string): seq<Action> {
    [Say(NavigatingToLogin)] + [Get(LoginUrl)] + [CurrentUrl(AfterLoginPage)]
    + (if Contains(s.loginPageUrl, "feed") then [Say(AlreadyLoggedIn)]
       else AttemptActions(s, email, password))
  }

  function StartActions(s: Script, email: string, password: string): seq<Action> {
    [Say(StartingBrowser)] + [Get(HomeUrl)] + PageLoadActions(s, PageLoadSeconds)
    + IsLoggedInActions(s)
    + (if SessionActive(s) then [] else HandleLoginActions(s, email, password))
  }

  // Properties of the login flow, stated on the stable-connection traces.

  /** The generator test in `is_logged_in` holds exactly when some text, once
      stripped, is the prompt. */
  lemma {:induction false} AnyStartAPostIsExists(texts: seq<string>)
    ensures AnyStartAPost(texts) <==> exists i :: 0 <= i < |texts| && Strip(texts[i]) == PostPrompt
  {
    if texts != [] {
      AnyStartAPostIsExists(texts[1..]);
      if AnyStartAPost(texts[1..]) {
        var i :| 0 <= i < |texts[1..]| && Strip(texts[1..][i]) == PostPrompt;
        assert Strip(texts[i + 1]) == PostPrompt;
      }
      if exists i :: 0 <= i < |texts| && Strip(texts[i]) == PostPrompt {
        var i :| 0 <= i < |texts| && Strip(texts[i]) == PostPrompt;
        if i > 0 {
          assert texts[1..][i - 1] == texts[i];
        }
      }
    }
  }

  /** `is_logged_in` first opens the feed; it answers true only when the
      marker wait succeeds and a marker reads "Start a post", and false on a
      timeout or when no marker has that text. */
  lemma SessionCheck(s: Script)
    ensures IsLoggedInActions(s)[0] == Get(FeedUrl)
    ensures SessionActive(s) <==>
              s.shareBox == Found
              && exists i :: 0 <= i < |s.shareBoxTexts| && Strip(s.shareBoxTexts[i]) == PostPrompt
    ensures s.shareBox == Timeout ==> IsLoggedInActions(s) == [Get(FeedUrl), Await(ShareBoxPresent, WaitSeconds)]
  {
    AnyStartAPostIsExists(s.shareBoxTexts);
  }

  /** What `start` does after the page-load wait. */
  function SessionActions(s: Script, email: string, password: string): seq<Action> {
    IsLoggedInActions(s) + (if SessionActive(s) then [] else HandleLoginActions(s, email, password))
  }

  lemma StartSplits(s: Script, email: string, password: string)
    ensures StartActions(s, email, password)
            == [Say(StartingBrowser), Get(HomeUrl)] + PageLoadActions(s, PageLoadSeconds)
               + SessionActions(s, email, password)
  {
    var opening := [Say(StartingBrowser)] + [Get(HomeUrl)];
    assert opening == [Say(StartingBrowser), Get(HomeUrl)];
    var load := PageLoadActions(s, PageLoadSeconds);
    var check := IsLoggedInActions(s);
    var login := if SessionActive(s) then [] else HandleLoginActions(s, email, password);
    assert StartActions(s, email, password) == opening + load + check + login;
    AppendAssociates(opening + load, check, login);
  }

  /** On a connection that drops after `n` commands, `start` returns exactly
      when it issues at most `n` browser commands; with an active session it
      issues five: the two page loads, the two waits and the marker lookup. */
  lemma StartWithinBudget(s: Script, email: string, password: string, n: nat)
    ensures Completes(StartActions(s, email, password), DropsAfter(n))
            <==> CommandCount(StartActions(s, email, password)) <= n
    ensures SessionActive(s) ==> CommandCount(StartActions(s, email, password)) == 5
  {
    CompletesWithinBudget(StartActions(s, email, password), n);
    if SessionActive(s) {
      var load := PageLoadActions(s, PageLoadSeconds);
      var check := IsLoggedInActions(s);
      StartSplits(s, email, password);
      assert SessionActions(s, email, password) == check;
      CommandCountAppend([Say(StartingBrowser), Get(HomeUrl)] + load, check);
      CommandCountAppend([Say(StartingBrowser), Get(HomeUrl)], load);
      CommandCountAppend([Get(FeedUrl)] + [Await(ShareBoxPresent, WaitSeconds)],
                         [FindElements(ShareBoxTrigger)] + [Say(AlreadyLoggedIn)]);
      CommandCountAppend([Await(DocumentComplete, PageLoadSeconds)],
                         if s.pageLoad == Timeout then [Say(PageLoadTimedOut)] else []);
      assert CommandCount([Say(StartingBrowser), Get(HomeUrl)]) == 1;
      assert CommandCount(load) == 1;
      assert CommandCount(check) == 3;
    }
  }

  /** Nothing after the page-load wait depends on how that wait ended. */
  lemma SessionIgnoresPageLoad(s: Script, w: Wait, email: string, password: string)
    ensures SessionActions(s.(pageLoad := w), email, password) == SessionActions(s, email, password)
  {
    var r := s.(pageLoad := w);
    assert SessionActive(r) == SessionActive(s);
    assert IsLoggedInActions(r) == IsLoggedInActions(s);
    assert EnterCredentialsActions(r, email, password) == EnterCredentialsActions(s, email, password);
    assert SubmitActions(r) == SubmitActions(s);
    assert SecurityCheckActions(r) == SecurityCheckActions(s);
    assert AttemptActions(r, email, password) == AttemptActions(s, email, password);
    assert HandleLoginActions(r, email, password) == HandleLoginActions(s, email, password);
  }

  /** `start` opens the site, then waits for the page; a page-load timeout
      only adds its message and the flow goes on to the session check. */
  lemma PageLoadTimeoutOnlyReported(s: Script, email: string, password: string)
    ensures StartActions(s, email, password)[..3]
              == [Say(StartingBrowser), Get(HomeUrl), Await(DocumentComplete, PageLoadSeconds)]
    ensures var loaded := StartActions(s.(pageLoad := Found), email, password);
            var late := StartActions(s.(pageLoad := Timeout), email, password);
            late == loaded[..3] + [Say(PageLoadTimedOut)] + loaded[3..]
    ensures Get(FeedUrl) in StartActions(s, email, password)
  {
    var loaded, late := s.(pageLoad := Found), s.(pageLoad := Timeout);
    SessionIgnoresPageLoad(s, Found, email, password);
    SessionIgnoresPageLoad(s, Timeout, email, password);
    StartSplits(s, email, password);
    StartSplits(loaded, email, password);
    StartSplits(late, email, password);
    var head := [Say(StartingBrowser), Get(HomeUrl), Await(DocumentComplete, PageLoadSeconds)];
    var tail := SessionActions(s, email, password);
    assert StartActions(loaded, email, password) == head + tail;
    assert StartActions(late, email, password) == head + [Say(PageLoadTimedOut)] + tail;
    assert (head + tail)[..3] == head;
    assert (head + tail)[3..] == tail;
    assert StartActions(s, email, password)[..3] == head;
    assert Get(FeedUrl) == IsLoggedInActions(s)[0];
    assert Get(FeedUrl) in tail;
  }

  /** With an active session `start` never opens the login page, types
      nothing and clicks nothing. */
  lemma ActiveSessionSkipsLogin(s: Script, email: string, password: string)
    requires SessionActive(s)
    ensures forall a :: a in StartActions(s, email, password) ==>
              !a.SendKeys? && !a.Click? && !a.Sleep? && a != Get(LoginUrl)
  {
    StartSplits(s, email, password);
    assert SessionActions(s, email, password) == IsLoggedInActions(s);
    assert LoginUrl != HomeUrl && LoginUrl != FeedUrl;
  }

  /** The login page is opened exactly when no session was found. */
  lemma LoginOnlyWithoutSession(s: Script, email: string, password: string)
    ensures Get(LoginUrl) in StartActions(s, email, password) <==> !SessionActive(s)
  {
    if !SessionActive(s) {
      assert StartActions(s, email, password)[|StartActions(s, email, password)| - |HandleLoginActions(s, email, password)| + 1]
          == Get(LoginUrl);
    }
    assert LoginUrl != HomeUrl && LoginUrl != FeedUrl;
  }

  /** When the login page already lands on the feed, `handle_login` returns
      at once: no typing, no settle sleep, no challenge handling. */
  lemma LoginPageOnFeedReturnsAtOnce(s: Script, email: string, password: string)
    requires Contains(s.loginPageUrl, "feed")
    ensures HandleLoginActions(s, email, password)
              == [Say(NavigatingToLogin), Get(LoginUrl), CurrentUrl(AfterLoginPage), Say(AlreadyLoggedIn)]
  {
  }

  /** `enter_credentials` types the email only once the username wait has
      succeeded, then looks up the password field, and types the password
      only when that field is present. */
  lemma EmailTypedBeforePassword(s: Script, email: string, password: string)
    ensures var e := EnterCredentialsActions(s, email, password);
            && e[0] == Await(UsernamePresent, WaitSeconds)
            && (SendKeys(UsernameField, email) in e <==> s.username == Found)
            && (SendKeys(PasswordField, password) in e <==> s.username == Found && s.passwordField == Present)
            && (s.username == Found ==> e[1] == SendKeys(UsernameField, email) && e[2] == FindElement(PasswordField))
            && (SendKeys(PasswordField, password) in e ==> |e| == 4 && e[3] == SendKeys(PasswordField, password))
  {
  }

  /** Everything `start` does before a credential attempt. */
  function Preamble(s: Script): seq<Action> {
    [Say(StartingBrowser)] + [Get(HomeUrl)] + PageLoadActions(s, PageLoadSeconds)
    + IsLoggedInActions(s)
    + [Say(NavigatingToLogin)] + [Get(LoginUrl)] + [CurrentUrl(AfterLoginPage)]
  }

  /** Navigation, the session and page waits, URL reads and progress messages. */
  predicate Preliminary(a: Action) {
    || a.Get?
    || a == Await(DocumentComplete, PageLoadSeconds)
    || a == Await(ShareBoxPresent, WaitSeconds)
    || a == FindElements(ShareBoxTrigger)
    || a == CurrentUrl(AfterLoginPage)
    || a == Say(StartingBrowser) || a == Say(PageLoadTimedOut)
    || a == Say(AlreadyLoggedIn) || a == Say(NavigatingToLogin)
  }

  /** Without a session, and unless the login page lands on the feed, `start`
      is the preamble followed by one credential attempt. */
  lemma StartIsPreambleThenAttempt(s: Script, email: string, password: string)
    requires !SessionActive(s) && !Contains(s.loginPageUrl, "feed")
    ensures StartActions(s, email, password) == Preamble(s) + AttemptActions(s, email, password)
    ensures forall a :: a in Preamble(s) ==> Preliminary(a)
  {
    var pre := [Say(StartingBrowser)] + [Get(HomeUrl)] + PageLoadActions(s, PageLoadSeconds)
               + IsLoggedInActions(s);
    var nav := [Say(NavigatingToLogin)] + [Get(LoginUrl)] + [CurrentUrl(AfterLoginPage)];
    var attempt := AttemptActions(s, email, password);
    assert HandleLoginActions(s, email, password) == nav + attempt;
    assert StartActions(s, email, password) == pre + (nav + attempt);
    assert pre + (nav + attempt) == (pre + nav) + attempt;
  }

  /** Actions that type nothing, look up no single element and click nothing. */
  predicate Passive(a: Action) {
    !a.SendKeys? && !a.FindElement? && !a.Click?
  }

  /** The end of a credential attempt: the settle sleep, the URL read and
      the security check when it is due. */
  function SettleActions(s: Script): seq<Action> {
    [Sleep(SettleSeconds)] + [CurrentUrl(AfterSettling)]
    + (if Contains(s.settledUrl, "challenge") then SecurityCheckActions(s) else [])
  }

  lemma AttemptSplits(s: Script, email: string, password: string)
    ensures AttemptActions(s, email, password)
            == EnterCredentialsActions(s, email, password)
               + (if PasswordMissing(s) then [Say(CouldNotLogIn)] else SubmitActions(s))
               + SettleActions(s)
  {
    var enter := EnterCredentialsActions(s, email, password);
    var submit := if PasswordMissing(s) then [Say(CouldNotLogIn)] else SubmitActions(s);
    var check := if Contains(s.settledUrl, "challenge") then SecurityCheckActions(s) else [];
    assert AttemptActions(s, email, password)
        == (enter + submit) + ([Sleep(SettleSeconds)] + [CurrentUrl(AfterSettling)] + check);
  }

  /** Settling is passive, always sleeps, and waits for the challenge page
      exactly when the settled URL mentions a challenge. */
  lemma SettleShape(s: Script)
    ensures forall a | a in SettleActions(s) :: Passive(a)
    ensures Sleep(SettleSeconds) in SettleActions(s)
    ensures Await(UrlContains(ChallengeFragment), WaitSeconds) in SettleActions(s)
            <==> Contains(s.settledUrl, "challenge")
  {
    var check := if Contains(s.settledUrl, "challenge") then SecurityCheckActions(s) else [];
    assert SettleActions(s) == [Sleep(SettleSeconds)] + [CurrentUrl(AfterSettling)] + check;
    assert forall a | a in check :: a.Await? || a.Say?;
  }

  /** An action that is neither preliminary nor passive can only come from
      the middle of preamble, middle and settling. */
  lemma OnlyInMiddle(pre: seq<Action>, mid: seq<Action>, settle: seq<Action>, x: Action)
    requires forall a | a in pre :: Preliminary(a)
    requires forall a | a in settle :: Passive(a)
    requires !Preliminary(x) && !Passive(x)
    ensures x in pre + (mid + settle) <==> x in mid
  {
  }

  /** After a username-field timeout, an attempt is the wait and its message,
      the submit, and settling. */
  lemma UsernameTimeoutAttempt(s: Script, email: string, password: string)
    requires s.username == Timeout
    ensures AttemptActions(s, email, password)
            == [Await(UsernamePresent, WaitSeconds), Say(LoginFormNotFound)] + SubmitActions(s) + SettleActions(s)
  {
    AttemptSplits(s, email, password);
    assert EnterCredentialsActions(s, email, password)
        == [Await(UsernamePresent, WaitSeconds), Say(LoginFormNotFound)];
  }

  /** The facts of the next lemma over any preamble, submit and settling of
      the right kinds. */
  lemma TimeoutFlow(pre: seq<Action>, submit: seq<Action>, settle: seq<Action>, present: bool)
    requires forall a | a in pre :: Preliminary(a)
    requires forall a | a in settle :: Passive(a)
    requires submit == [FindElement(SubmitButton)]
                       + (if present then [Click(SubmitButton)] else [Say(LoginButtonNotFound)])
    ensures var whole := pre + ([Await(UsernamePresent, WaitSeconds), Say(LoginFormNotFound)] + submit + settle);
            && FindElement(SubmitButton) in whole
            && (Click(SubmitButton) in whole <==> present)
            && forall a | a in whole :: !a.SendKeys?
  {
    var mid := [Await(UsernamePresent, WaitSeconds), Say(LoginFormNotFound)] + submit;
    assert pre + (mid + settle) == pre + ([Await(UsernamePresent, WaitSeconds), Say(LoginFormNotFound)] + submit + settle);
    OnlyInMiddle(pre, mid, settle, FindElement(SubmitButton));
    OnlyInMiddle(pre, mid, settle, Click(SubmitButton));
    forall a: Action | a in pre + (mid + settle)
      ensures !a.SendKeys?
    {
      if a.SendKeys? {
        OnlyInMiddle(pre, mid, settle, a);
      }
    }
  }

  /** A username-field timeout is swallowed: nothing is typed, yet the submit
      button is still looked up and clicked when it is there. */
  lemma UsernameTimeoutStillSubmits(s: Script, email: string, password: string)
    requires !SessionActive(s) && !Contains(s.loginPageUrl, "feed")
    requires s.username == Timeout
    ensures FindElement(SubmitButton) in StartActions(s, email, password)
    ensures Click(SubmitButton) in StartActions(s, email, password) <==> s.submitButton == Present
    ensures forall a :: a in StartActions(s, email, password) ==> !a.SendKeys?
  {
    StartIsPreambleThenAttempt(s, email, password);
    AttemptSplits(s, email, password);
    SettleShape(s);
    UsernameTimeoutAttempt(s, email, password);
    TimeoutFlow(Preamble(s), SubmitActions(s), SettleActions(s), s.submitButton == Present);
  }

  /** With the password field missing, the credentials part of an attempt is
      the wait, the e-mail, the failed lookup and the could-not-log-in message. */
  lemma MissingPasswordMiddle(s: Script, email: string, password: string)
    requires PasswordMissing(s)
    ensures EnterCredentialsActions(s, email, password) + [Say(CouldNotLogIn)]
            == [Await(UsernamePresent, WaitSeconds), SendKeys(UsernameField, email),
                FindElement(PasswordField), Say(CouldNotLogIn)]
  {
  }

  /** The facts of the next lemma over any preamble and settling of the
      right kinds. */
  lemma MissingPasswordFlow(pre: seq<Action>, mid: seq<Action>, settle: seq<Action>, email: string, password: string)
    requires forall a | a in pre :: Preliminary(a)
    requires forall a | a in settle :: Passive(a)
    requires Sleep(SettleSeconds) in settle
    requires mid == [Await(UsernamePresent, WaitSeconds), SendKeys(UsernameField, email),
                     FindElement(PasswordField), Say(CouldNotLogIn)]
    ensures var whole := pre + (mid + settle);
            && SendKeys(UsernameField, email) in whole
            && Say(CouldNotLogIn) in whole
            && Sleep(SettleSeconds) in whole
            && forall a | a in whole ::
                 a != FindElement(SubmitButton) && !a.Click? && a != SendKeys(PasswordField, password)
  {
    forall a: Action | a in pre + (mid + settle)
      ensures a != FindElement(SubmitButton) && !a.Click? && a != SendKeys(PasswordField, password)
    {
      if a == FindElement(SubmitButton) || a.Click? || a == SendKeys(PasswordField, password) {
        OnlyInMiddle(pre, mid, settle, a);
      }
    }
  }

  /** A missing password field escapes `enter_credentials`, so `handle_login`
      reports the failure and skips the submit, but still sleeps. */
  lemma MissingPasswordSkipsSubmit(s: Script, email: string, password: string)
    requires !SessionActive(s) && !Contains(s.loginPageUrl, "feed")
    requires PasswordMissing(s)
    ensures SendKeys(UsernameField, email) in StartActions(s, email, password)
    ensures Say(CouldNotLogIn) in StartActions(s, email, password)
    ensures Sleep(SettleSeconds) in StartActions(s, email, password)
    ensures forall a :: a in StartActions(s, email, password) ==>
              a != FindElement(SubmitButton) && !a.Click? && a != SendKeys(PasswordField, password)
  {
    StartIsPreambleThenAttempt(s, email, password);
    AttemptSplits(s, email, password);
    SettleShape(s);
    MissingPasswordMiddle(s, email, password);
    MissingPasswordFlow(Preamble(s), EnterCredentialsActions(s, email, password) + [Say(CouldNotLogIn)],
                        SettleActions(s), email, password);
  }

  /** Typing the credentials and submitting neither sleep nor wait for a URL. */
  lemma CredentialsNeitherSleepNorCheck(s: Script, email: string, password: string)
    ensures forall a | a in EnterCredentialsActions(s, email, password)
                         + (if PasswordMissing(s) then [Say(CouldNotLogIn)] else SubmitActions(s)) ::
              !a.Sleep? && !(a.Await? && a.condition.UrlContains?)
  {
  }

  /** An action that is not preliminary and not in the middle can only come
      from settling. */
  lemma OnlyInSettle(pre: seq<Action>, mid: seq<Action>, settle: seq<Action>, x: Action)
    requires forall a | a in pre :: Preliminary(a)
    requires x !in mid && !Preliminary(x)
    ensures x in pre + (mid + settle) <==> x in settle
  {
  }

  /** The settle sleep happens exactly when a credential attempt was made,
      and the security check then runs exactly when the URL mentions a challenge. */
  lemma SettleSleepThenChallenge(s: Script, email: string, password: string)
    ensures (Sleep(SettleSeconds) in StartActions(s, email, password))
              <==> !SessionActive(s) && !Contains(s.loginPageUrl, "feed")
    ensures !SessionActive(s) && !Contains(s.loginPageUrl, "feed") ==>
              (Await(UrlContains(ChallengeFragment), WaitSeconds) in StartActions(s, email, password)
               <==> Contains(s.settledUrl, "challenge"))
  {
    if !SessionActive(s) && !Contains(s.loginPageUrl, "feed") {
      AttemptSettles(s, email, password);
    } else if SessionActive(s) {
      ActiveSessionSkipsLogin(s, email, password);
    } else {
      FeedLoginPageNeverSleeps(s, email, password);
    }
  }

  /** With an attempt, the settle sleep happens and the challenge wait runs
      exactly when the settled URL mentions a challenge. */
  lemma AttemptSettles(s: Script, email: string, password: string)
    requires !SessionActive(s) && !Contains(s.loginPageUrl, "feed")
    ensures Sleep(SettleSeconds) in StartActions(s, email, password)
    ensures Await(UrlContains(ChallengeFragment), WaitSeconds) in StartActions(s, email, password)
            <==> Contains(s.settledUrl, "challenge")
  {
    StartIsPreambleThenAttempt(s, email, password);
    AttemptSplits(s, email, password);
    SettleShape(s);
    var mid := EnterCredentialsActions(s, email, password)
               + (if PasswordMissing(s) then [Say(CouldNotLogIn)] else SubmitActions(s));
    var pre, settle := Preamble(s), SettleActions(s);
    assert StartActions(s, email, password) == pre + (mid + settle);
    CredentialsNeitherSleepNorCheck(s, email, password);
    SettleFlow(pre, mid, settle, Contains(s.settledUrl, "challenge"));
  }

  /** The facts of the previous lemma over any preamble, middle and settling
      of the right kinds. */
  lemma SettleFlow(pre: seq<Action>, mid: seq<Action>, settle: seq<Action>, challenged: bool)
    requires forall a | a in pre :: Preliminary(a)
    requires forall a | a in mid :: !a.Sleep? && !(a.Await? && a.condition.UrlContains?)
    requires Sleep(SettleSeconds) in settle
    requires Await(UrlContains(ChallengeFragment), WaitSeconds) in settle <==> challenged
    ensures Sleep(SettleSeconds) in pre + (mid + settle)
    ensures Await(UrlContains(ChallengeFragment), WaitSeconds) in pre + (mid + settle) <==> challenged
  {
    OnlyInSettle(pre, mid, settle, Sleep(SettleSeconds));
    OnlyInSettle(pre, mid, settle, Await(UrlContains(ChallengeFragment), WaitSeconds));
  }

  /** When the login page lands on the feed, `start` never sleeps. */
  lemma FeedLoginPageNeverSleeps(s: Script, email: string, password: string)
    requires !SessionActive(s) && Contains(s.loginPageUrl, "feed")
    ensures Sleep(SettleSeconds) !in StartActions(s, email, password)
  {
    LoginPageOnFeedReturnsAtOnce(s, email, password);
    StartSplits(s, email, password);
  }

  /** `handle_security_check` ends in exactly one of two messages: completed
      when the challenge page and then the feed were reached in time, not
      completed when either wait timed out. */
  lemma SecurityCheckOutcomes(s: Script)
    ensures var a := SecurityCheckActions(s);
            var done := s.challengePage == Found && s.feedReturn == Found;
            && a[|a| - 1] == (if done then Say(CheckCompleted) else Say(CheckNotCompleted))
            && (Say(CheckCompleted) in a <==> done)
            && (Say(CheckNotCompleted) in a <==> !done)
            && (Await(UrlContains(FeedFragment), ChallengeSeconds) in a <==> s.challengePage == Found)
  {
  }

  /** A method stopped by a dropped connection part-way through `whole`. */
  lemma AbortWithin(t0: seq<Action>, c0: Connection, done: seq<Action>, whole: seq<Action>,
                    t: seq<Action>, c: Connection)
    requires Ran(t0, c0, done, t, c, false)
    requires done <= whole
    ensures Ran(t0, c0, whole, t, c, false)
  {
    var rest := whole[|done|..];
    assert whole == done + rest;
    Abort(t0, c0, done, rest, t, c);
  }

  class Authenticator {
    const driver: Driver
    var email: string
    var password: string

    constructor (driver: Driver)
      ensures this.driver == driver && email == "" && password == ""
    {
      this.driver := driver;
      email := "";
      password := "";
    }

    method SetSecrets(email: string, password: string)
      modifies this`email, this`password
      ensures this.email == email && this.password == password
    {
      this.email := email;
      this.password := password;
    }

    method Start() returns (ok: bool)
      modifies driver
      ensures Ran(old(driver.trace), old(driver.connection),
                  StartActions(driver.script, email, password),
                  driver.trace, driver.connection, ok)
    {
      ghost var t0, c0, s := driver.trace, driver.connection, driver.script;
      ghost var whole := StartActions(s, email, password);
      driver.Say(StartingBrowser);
      ghost var done := [Say(StartingBrowser)];
      ok := driver.Get(HomeUrl);
      Step(t0, c0, done, [Get(HomeUrl)], driver.trace, driver.connection, ok);
      done := done + [Get(HomeUrl)];
      if !ok {
        AbortWithin(t0, c0, done, whole, driver.trace, driver.connection);
        return;
      }
      ok := WaitForPageLoad(PageLoadSeconds);
      Step(t0, c0, done, PageLoadActions(s, PageLoadSeconds), driver.trace, driver.connection, ok);
      done := done + PageLoadActions(s, PageLoadSeconds);
      if !ok {
        AbortWithin(t0, c0, done, whole, driver.trace, driver.connection);
        return;
      }
      var active;
      ok, active := IsLoggedIn();
      Step(t0, c0, done, IsLoggedInActions(s), driver.trace, driver.connection, ok);
      done := done + IsLoggedInActions(s);
      if !ok {
        AbortWithin(t0, c0, done, whole, driver.trace, driver.connection);
        return;
      }
      if !active {
        ok := HandleLogin();
        Step(t0, c0, done, HandleLoginActions(s, email, password), driver.trace, driver.connection, ok);
        done := done + HandleLoginActions(s, email, password);
      } else {
        assert done + [] == done;
      }
      assert done == whole;
    }

    method WaitForPageLoad(timeout: nat) returns (ok: bool)
      modifies driver
      ensures Ran(old(driver.trace), old(driver.connection),
                  PageLoadActions(driver.script, timeout),
                  driver.trace, driver.connection, ok)
    {
      ghost var t0, c0, s := driver.trace, driver.connection, driver.script;
      ghost var whole := PageLoadActions(s, timeout);
      var outcome;
      ok, outcome := driver.Await(DocumentComplete, timeout);
      ghost var done := [Await(DocumentComplete, timeout)];
      if !ok {
        AbortWithin(t0, c0, done, whole, driver.trace, driver.connection);
        return;
      }
      if outcome == Timeout {
        driver.Say(PageLoadTimedOut);
        Step(t0, c0, done, [Say(PageLoadTimedOut)], driver.trace, driver.connection, true);
        done := done + [Say(PageLoadTimedOut)];
      } else {
        assert done + [] == done;
      }
      assert done == whole;
    }

    method IsLoggedIn() returns (ok: bool, active: bool)
      modifies driver
      ensures Ran(old(driver.trace), old(driver.connection),
                  IsLoggedInActions(driver.script),
                  driver.trace, driver.connection, ok)
      ensures ok ==> active == SessionActive(driver.script)
    {
      ghost var t0, c0, s := driver.trace, driver.connection, driver.script;
      ghost var whole := IsLoggedInActions(s);
      active := false;
      ok := driver.Get(FeedUrl);
      ghost var done := [Get(FeedUrl)];
      if !ok {
        AbortWithin(t0, c0, done, whole, driver.trace, driver.connection);
        return;
      }
      var outcome;
      ok, outcome := driver.Await(ShareBoxPresent, WaitSeconds);
      Step(t0, c0, done, [Await(ShareBoxPresent, WaitSeconds)], driver.trace, driver.connection, ok);
      done := done + [Await(ShareBoxPresent, WaitSeconds)];
      if !ok {
        AbortWithin(t0, c0, done, whole, driver.trace, driver.connection);
        return;
      }
      if outcome == Timeout {
        assert done + [] == done;
        assert done == whole;
        return;
      }
      var texts;
      ok, texts := driver.FindElements(ShareBoxTrigger);
      Step(t0, c0, done, [FindElements(ShareBoxTrigger)], driver.trace, driver.connection, ok);
      done := done + [FindElements(ShareBoxTrigger)];
      if !ok {
        AbortWithin(t0, c0, done, whole, driver.trace, driver.connection);
        return;
      }
      if AnyStartAPost(texts) {
        driver.Say(AlreadyLoggedIn);
        Step(t0, c0, done, [Say(AlreadyLoggedIn)], driver.trace, driver.connection, true);
        done := done + [Say(AlreadyLoggedIn)];
        active := true;
      } else {
        assert done + [] == done;
      }
      assert done == whole;
    }

    method HandleLogin() returns (ok: bool)
      modifies driver
      ensures Ran(old(driver.trace), old(driver.connection),
                  HandleLoginActions(driver.script, email, password),
                  driver.trace, driver.connection, ok)
    {
      ghost var t0, c0, s := driver.trace, driver.connection, driver.script;
      ghost var whole := HandleLoginActions(s, email, password);
      driver.Say(NavigatingToLogin);
      ghost var done := [Say(NavigatingToLogin)];
      ok := driver.Get(LoginUrl);
      Step(t0, c0, done, [Get(LoginUrl)], driver.trace, driver.connection, ok);
      done := done + [Get(LoginUrl)];
      if !ok {
        AbortWithin(t0, c0, done, whole, driver.trace, driver.connection);
        return;
      }
      var url;
      ok, url := driver.CurrentUrl(AfterLoginPage);
      Step(t0, c0, done, [CurrentUrl(AfterLoginPage)], driver.trace, driver.connection, ok);
      done := done + [CurrentUrl(AfterLoginPage)];
      if !ok {
        AbortWithin(t0, c0, done, whole, driver.trace, driver.connection);
        return;
      }
      if Contains(url, "feed") {
        driver.Say(AlreadyLoggedIn);
        Step(t0, c0, done, [Say(AlreadyLoggedIn)], driver.trace, driver.connection, true);
        done := done + [Say(AlreadyLoggedIn)];
        assert done == whole;
        return;
      }
      ok := Attempt();
      Step(t0, c0, done, AttemptActions(s, email, password), driver.trace, driver.connection, ok);
    }

    /** The credential attempt inside `handle_login`: the credentials, then
        the submit unless the password field was missing, then settling. */
    method Attempt() returns (ok: bool)
      modifies driver
      ensures Ran(old(driver.trace), old(driver.connection),
                  AttemptActions(driver.script, email, password),
                  driver.trace, driver.connection, ok)
    {
      ghost var t0, c0, s := driver.trace, driver.connection, driver.script;
      ghost var whole := AttemptActions(s, email, password);
      AttemptSplits(s, email, password);
      var missing;
      ok, missing := EnterCredentials();
      ghost var done := EnterCredentialsActions(s, email, password);
      if !ok {
        AbortWithin(t0, c0, done, whole, driver.trace, driver.connection);
        return;
      }
      if missing {
        driver.Say(CouldNotLogIn);
        Step(t0, c0, done, [Say(CouldNotLogIn)], driver.trace, driver.connection, true);
        done := done + [Say(CouldNotLogIn)];
      } else {
        ok := SubmitLoginForm();
        Step(t0, c0, done, SubmitActions(s), driver.trace, driver.connection, ok);
        done := done + SubmitActions(s);
        if !ok {
          AbortWithin(t0, c0, done, whole, driver.trace, driver.connection);
          return;
        }
      }
      ok := Settle();
      Step(t0, c0, done, SettleActions(s), driver.trace, driver.connection, ok);
    }

    /** The end of `handle_login`: sleep, read the URL, and run the security
        check when the URL mentions a challenge. */
    method Settle() returns (ok: bool)
      modifies driver
      ensures Ran(old(driver.trace), old(driver.connection),
                  SettleActions(driver.script),
                  driver.trace, driver.connection, ok)
    {
      ghost var t0, c0, s := driver.trace, driver.connection, driver.script;
      ghost var whole := SettleActions(s);
      driver.Sleep(SettleSeconds);
      ghost var done := [Sleep(SettleSeconds)];
      var url;
      ok, url := driver.CurrentUrl(AfterSettling);
      Step(t0, c0, done, [CurrentUrl(AfterSettling)], driver.trace, driver.connection, ok);
      done := done + [CurrentUrl(AfterSettling)];
      if !ok {
        AbortWithin(t0, c0, done, whole, driver.trace, driver.connection);
        return;
      }
      if Contains(url, "challenge") {
        ok := HandleSecurityCheck();
        Step(t0, c0, done, SecurityCheckActions(s), driver.trace, driver.connection, ok);
      } else {
        assert done + [] == done;
      }
    }

    method EnterCredentials() returns (ok: bool, passwordMissing: bool)
      modifies driver
      ensures Ran(old(driver.trace), old(driver.connection),
                  EnterCredentialsActions(driver.script, email, password),
                  driver.trace, driver.connection, ok)
      ensures ok ==> passwordMissing == PasswordMissing(driver.script)
    {
      ghost var t0, c0, s := driver.trace, driver.connection, driver.script;
      ghost var whole := EnterCredentialsActions(s, email, password);
      passwordMissing := false;
      var outcome;
      ok, outcome := driver.Await(UsernamePresent, WaitSeconds);
      ghost var done := [Await(UsernamePresent, WaitSeconds)];
      if !ok {
        AbortWithin(t0, c0, done, whole, driver.trace, driver.connection);
        return;
      }
      if outcome == Timeout {
        driver.Say(LoginFormNotFound);
        Step(t0, c0, done, [Say(LoginFormNotFound)], driver.trace, driver.connection, true);
        done := done + [Say(LoginFormNotFound)];
        assert done == whole;
        return;
      }
      ok := driver.SendKeys(UsernameField, email);
      Step(t0, c0, done, [SendKeys(UsernameField, email)], driver.trace, driver.connection, ok);
      done := done + [SendKeys(UsernameField, email)];
      if !ok {
        AbortWithin(t0, c0, done, whole, driver.trace, driver.connection);
        return;
      }
      var presence;
      ok, presence := driver.FindElement(PasswordField);
      Step(t0, c0, done, [FindElement(PasswordField)], driver.trace, driver.connection, ok);
      done := done + [FindElement(PasswordField)];
      if !ok {
        AbortWithin(t0, c0, done, whole, driver.trace, driver.connection);
        return;
      }
      if presence == Absent {
        passwordMissing := true;
        assert done + [] == done;
        assert done == whole;
        return;
      }
      ok := driver.SendKeys(PasswordField, password);
      Step(t0, c0, done, [SendKeys(PasswordField, password)], driver.trace, driver.connection, ok);
      done := done + [SendKeys(PasswordField, password)];
      assert done == whole;
    }

    method SubmitLoginForm() returns (ok: bool)
      modifies driver
      ensures Ran(old(driver.trace), old(driver.connection),
                  SubmitActions(driver.script),
                  driver.trace, driver.connection, ok)
    {
      ghost var t0, c0, s := driver.trace, driver.connection, driver.script;
      ghost var whole := SubmitActions(s);
      var presence;
      ok, presence := driver.FindElement(SubmitButton);
      ghost var done := [FindElement(SubmitButton)];
      if !ok {
        AbortWithin(t0, c0, done, whole, driver.trace, driver.connection);
        return;
      }
      if presence == Present {
        ok := driver.Click(SubmitButton);
        Step(t0, c0, done, [Click(SubmitButton)], driver.trace, driver.connection, ok);
        done := done + [Click(SubmitButton)];
      } else {
        driver.Say(LoginButtonNotFound);
        Step(t0, c0, done, [Say(LoginButtonNotFound)], driver.trace, driver.connection, true);
        done := done + [Say(LoginButtonNotFound)];
      }
      assert done == whole;
    }

    method HandleSecurityCheck() returns (ok: bool)
      modifies driver
      ensures Ran(old(driver.trace), old(driver.connection),
                  SecurityCheckActions(driver.script),
                  driver.trace, driver.connection, ok)
    {
      ghost var t0, c0, s := driver.trace, driver.connection, driver.script;
      ghost var whole := SecurityCheckActions(s);
      var outcome;
      ok, outcome := driver.Await(UrlContains(ChallengeFragment), WaitSeconds);
      ghost var done := [Await(UrlContains(ChallengeFragment), WaitSeconds)];
      if !ok {
        AbortWithin(t0, c0, done, whole, driver.trace, driver.connection);
        return;
      }
      if outcome == Timeout {
        driver.Say(CheckNotCompleted);
        Step(t0, c0, done, [Say(CheckNotCompleted)], driver.trace, driver.connection, true);
        done := done + [Say(CheckNotCompleted)];
        assert done == whole;
        return;
      }
      driver.Say(CheckpointDetected);
      Step(t0, c0, done, [Say(CheckpointDetected)], driver.trace, driver.connection, true);
      done := done + [Say(CheckpointDetected)];
      ok, outcome := driver.Await(UrlContains(FeedFragment), ChallengeSeconds);
      Step(t0, c0, done, [Await(UrlContains(FeedFragment), ChallengeSeconds)], driver.trace, driver.connection, ok);
      done := done + [Await(UrlContains(FeedFragment), ChallengeSeconds)];
      if !ok {
        AbortWithin(t0, c0, done, whole, driver.trace, driver.connection);
        return;
      }
      if outcome == Timeout {
        driver.Say(CheckNotCompleted);
        Step(t0, c0, done, [Say(CheckNotCompleted)], driver.trace, driver.connection, true);
        done := done + [Say(CheckNotCompleted)];
      } else {
        driver.Say(CheckCompleted);
        Step(t0, c0, done, [Say(CheckCompleted)], driver.trace, driver.connection, true);
        done := done + [Say(CheckCompleted)];
      }
      assert done == whole;
    }
  }
}

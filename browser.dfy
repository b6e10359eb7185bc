/** The browser the login flow drives, as a scripted oracle.

    Every bounded wait answers Found or Timeout, every `find_element` answers
    Present or Absent, every `current_url` read answers a string; the script
    fixes the answer at each point of the flow. The driver records, in order,
    every command it is given, together with the sleeps and printed messages
    in between, as a trace of actions.

    The connection to the browser may drop: after a given number of commands
    the next command raises WebDriverException instead of running. `Cut`
    gives the part of a trace that runs before that happens. */
module Browser {

  const ChallengeFragment: string := "https://www.linkedin.com/checkpoint/challengesV2/"
  const FeedFragment: string := "https://www.linkedin.com/feed/"

  datatype Wait = Found | Timeout

  datatype Presence = Present | Absent

  /** The conditions the flow passes to `WebDriverWait(...).until`. */
  datatype Condition =
    | DocumentComplete               // document.readyState == 'complete'
    | ShareBoxPresent                // an element of class share-box-feed-entry__trigger exists
    | UsernamePresent                // the element with id "username" exists
    | UrlContains(fragment: string)  // the current URL contains the fragment

  /** The elements the flow looks up. */
  datatype Locator =
    | ShareBoxTrigger   // By.CLASS_NAME 'share-box-feed-entry__trigger'
    | UsernameField     // By.ID "username"
    | PasswordField     // By.ID "password"
    | SubmitButton      // By.XPATH '//button[@type="submit"]'

  /** The two places where the flow reads `current_url`. */
  datatype UrlRead = AfterLoginPage | AfterSettling

  /** What the flow prints, one constructor per distinct message. */
  datatype Message =
    | StartingBrowser
    | PageLoadTimedOut
    | AlreadyLoggedIn
    | NavigatingToLogin
    | CouldNotLogIn
    | LoginFormNotFound
    | LoginButtonNotFound
    | CheckpointDetected
    | CheckCompleted
    | CheckNotCompleted

  datatype Action =
    | Get(url: string)
    | Await(condition: Condition, seconds: nat)
    | FindElement(locator: Locator)
    | FindElements(locator: Locator)
    | CurrentUrl(read: UrlRead)
    | SendKeys(field: Locator, text: string)
    | Click(target: Locator)
    | Sleep(seconds: nat)
    | Say(message: Message)

  /** Commands go to the browser; sleeping and printing do not. */
  predicate IsCommand(a: Action) {
    !a.Sleep? && !a.Say?
  }

  /** The browser's answer at each query point of one login attempt. */
  datatype Script = Script(
    pageLoad: Wait,                // document ready within the page-load bound
    shareBox: Wait,                // a share-box trigger appears on the feed
    shareBoxTexts: seq<string>,    // the texts of the share-box triggers found
    loginPageUrl: string,          // current_url after opening the login page
    username: Wait,                // the username field appears
    passwordField: Presence,
    submitButton: Presence,
    settledUrl: string,            // current_url after the settle sleep
    challengePage: Wait,           // the URL reaches the challenge page
    feedReturn: Wait)              // the URL comes back to the feed
  {
    function Waited(c: Condition): Wait {
      match c
      case DocumentComplete => pageLoad
      case ShareBoxPresent => shareBox
      case UsernamePresent => username
      case UrlContains(fragment) =>
        if fragment == ChallengeFragment then challengePage
        else if fragment == FeedFragment then feedReturn
        else Timeout
    }

    function Located(l: Locator): Presence {
      match l
      case ShareBoxTrigger => if shareBoxTexts == [] then Absent else Present
      case UsernameField => if username == Found then Present else Absent
      case PasswordField => passwordField
      case SubmitButton => submitButton
    }

    function Texts(l: Locator): seq<string> {
      if l == ShareBoxTrigger then shareBoxTexts else []
    }

    function Url(r: UrlRead): string {
      match r
      case AfterLoginPage => loginPageUrl
      case AfterSettling => settledUrl
    }
  }

  /** Whether, and after how many more commands, the connection drops. */
  datatype Connection = Stable | DropsAfter(commands: nat)

  /** Whether action `a` runs on connection `c`. */
  predicate Runs(c: Connection, a: Action) {
    !(IsCommand(a) && c == DropsAfter(0))
  }

  /** The connection after `a` has run on `c` (a failed command leaves it as it was). */
  function Spend(c: Connection, a: Action): Connection {
    if IsCommand(a) && c.DropsAfter? && c.commands > 0 then DropsAfter(c.commands - 1) else c
  }

  /** The whole of `s` runs on `c`. */
  predicate Completes(s: seq<Action>, c: Connection) {
    s == [] || (Runs(c, s[0]) && Completes(s[1..], Spend(c, s[0])))
  }

  function After(c: Connection, s: seq<Action>): Connection
    decreases |s|
  {
    if s == [] then c else After(Spend(c, s[0]), s[1..])
  }

  /** The part of `s` that runs on `c`: everything before the first command
      the dropped connection refuses. */
  function Cut(s: seq<Action>, c: Connection): (r: seq<Action>)
    ensures r <= s
    ensures Completes(s, c) <==> r == s
  {
    if s == [] || !Runs(c, s[0]) then [] else [s[0]] + Cut(s[1..], Spend(c, s[0]))
  }

  function CommandCount(s: seq<Action>): nat {
    if s == [] then 0 else (if IsCommand(s[0]) then 1 else 0) + CommandCount(s[1..])
  }

  /** Starting from trace `t0` on connection `c0`, running the actions `e`
      left trace `t` and connection `c`, and `ok` says whether all of `e` ran. */
  ghost predicate Ran(t0: seq<Action>, c0: Connection, e: seq<Action>,
                      t: seq<Action>, c: Connection, ok: bool)
  {
    ok == Completes(e, c0) && t == t0 + Cut(e, c0) && c == After(c0, e)
  }

  /** `a + b` runs to the end iff `a` does and then `b` does. */
  lemma {:induction false} CompletesAppend(a: seq<Action>, b: seq<Action>, c: Connection)
    ensures Completes(a + b, c) == (Completes(a, c) && Completes(b, After(c, a)))
  {
    if a == [] {
      assert a + b == b;
    } else {
      assert (a + b)[0] == a[0];
      assert (a + b)[1..] == a[1..] + b;
      CompletesAppend(a[1..], b, Spend(c, a[0]));
    }
  }

  /** After `a` has run to the end, what runs of `a + b` is `a` and then what runs of `b`. */
  lemma {:induction false} CutAfterComplete(a: seq<Action>, b: seq<Action>, c: Connection)
    requires Completes(a, c)
    ensures Cut(a + b, c) == a + Cut(b, After(c, a))
  {
    if a == [] {
      assert a + b == b;
    } else {
      assert (a + b)[0] == a[0];
      assert (a + b)[1..] == a[1..] + b;
      CutAfterComplete(a[1..], b, Spend(c, a[0]));
    }
  }

  /** When `a` stops short, nothing of `b` runs. */
  lemma {:induction false} CutStopsShort(a: seq<Action>, b: seq<Action>, c: Connection)
    requires !Completes(a, c)
    ensures Cut(a + b, c) == Cut(a, c)
  {
    assert (a + b)[0] == a[0];
    if Runs(c, a[0]) {
      assert (a + b)[1..] == a[1..] + b;
      CutStopsShort(a[1..], b, Spend(c, a[0]));
    }
  }

  lemma {:induction false} AfterAppend(a: seq<Action>, b: seq<Action>, c: Connection)
    ensures After(c, a + b) == After(After(c, a), b)
  {
    if a == [] {
      assert a + b == b;
    } else {
      assert (a + b)[0] == a[0];
      assert (a + b)[1..] == a[1..] + b;
      AfterAppend(a[1..], b, Spend(c, a[0]));
    }
  }

  /** Once a command has been refused, the connection stays dropped. */
  lemma {:induction false} DroppedStaysDropped(s: seq<Action>, c: Connection)
    ensures !Completes(s, c) ==> After(c, s) == DropsAfter(0)
    ensures After(DropsAfter(0), s) == DropsAfter(0)
  {
    if s != [] {
      DroppedStaysDropped(s[1..], Spend(c, s[0]));
      DroppedStaysDropped(s[1..], DropsAfter(0));
    }
  }

  /** On a stable connection everything runs. */
  lemma {:induction false} StableRunsAll(s: seq<Action>)
    ensures Completes(s, Stable) && Cut(s, Stable) == s && After(Stable, s) == Stable
  {
    if s != [] {
      StableRunsAll(s[1..]);
    }
  }

  /** A connection that drops after `n` commands runs `s` to the end exactly
      when `s` issues at most `n` commands. */
  lemma {:induction false} CompletesWithinBudget(s: seq<Action>, n: nat)
    ensures Completes(s, DropsAfter(n)) <==> CommandCount(s) <= n
  {
    if s != [] {
      var n' := if IsCommand(s[0]) && n > 0 then n - 1 else n;
      CompletesWithinBudget(s[1..], n');
    }
  }

  lemma {:induction false} CommandCountAppend(a: seq<Action>, b: seq<Action>)
    ensures CommandCount(a + b) == CommandCount(a) + CommandCount(b)
  {
    if a == [] {
      assert a + b == b;
    } else {
      assert (a + b)[1..] == a[1..] + b;
      CommandCountAppend(a[1..], b);
    }
  }

  /** Running `done` to the end and then `step` is running `done + step`. */
  lemma Step(t0: seq<Action>, c0: Connection, done: seq<Action>, step: seq<Action>,
             t: seq<Action>, c: Connection, ok: bool)
    requires Completes(done, c0)
    requires Ran(t0 + done, After(c0, done), step, t, c, ok)
    ensures Ran(t0, c0, done + step, t, c, ok)
  {
    CompletesAppend(done, step, c0);
    CutAfterComplete(done, step, c0);
    AfterAppend(done, step, c0);
    AppendAssociates(t0, done, Cut(step, After(c0, done)));
  }

  lemma AppendAssociates(a: seq<Action>, b: seq<Action>, c: seq<Action>)
    ensures (a + b) + c == a + (b + c)
  {
  }

  /** When `done` stopped short, whatever was to follow it never runs. */
  lemma Abort(t0: seq<Action>, c0: Connection, done: seq<Action>, rest: seq<Action>,
              t: seq<Action>, c: Connection)
    requires Ran(t0, c0, done, t, c, false)
    ensures Ran(t0, c0, done + rest, t, c, false)
  {
    CompletesAppend(done, rest, c0);
    CutStopsShort(done, rest, c0);
    AfterAppend(done, rest, c0);
    DroppedStaysDropped(done, c0);
    DroppedStaysDropped(rest, c0);
  }

  /** The browser together with the clock and console the flow uses. */
  class Driver {
    const script: Script
    var connection: Connection
    var trace: seq<Action>

    constructor (script: Script, connection: Connection)
      ensures this.script == script && this.connection == connection && trace == []
    {
      this.script := script;
      this.connection := connection;
      trace := [];
    }

    method Perform(a: Action) returns (ok: bool)
      modifies this
      ensures Ran(old(trace), old(connection), [a], trace, connection, ok)
    {
      ok := Runs(connection, a);
      if ok {
        trace := trace + [a];
        connection := Spend(connection, a);
      }
    }

    /** `driver.get(url)` */
    method Get(url: string) returns (ok: bool)
      modifies this
      ensures Ran(old(trace), old(connection), [Action.Get(url)], trace, connection, ok)
    {
      ok := Perform(Action.Get(url));
    }

    /** `WebDriverWait(driver, seconds).until(condition)`, Timeout being TimeoutException. */
    method Await(condition: Condition, seconds: nat) returns (ok: bool, outcome: Wait)
      modifies this
      ensures Ran(old(trace), old(connection), [Action.Await(condition, seconds)], trace, connection, ok)
      ensures outcome == script.Waited(condition)
    {
      ok := Perform(Action.Await(condition, seconds));
      outcome := script.Waited(condition);
    }

    /** `driver.find_element(...)`, Absent being NoSuchElementException. */
    method FindElement(locator: Locator) returns (ok: bool, presence: Presence)
      modifies this
      ensures Ran(old(trace), old(connection), [Action.FindElement(locator)], trace, connection, ok)
      ensures presence == script.Located(locator)
    {
      ok := Perform(Action.FindElement(locator));
      presence := script.Located(locator);
    }

    /** `driver.find_elements(...)`, giving the text of each element found. */
    method FindElements(locator: Locator) returns (ok: bool, texts: seq<string>)
      modifies this
      ensures Ran(old(trace), old(connection), [Action.FindElements(locator)], trace, connection, ok)
      ensures texts == script.Texts(locator)
    {
      ok := Perform(Action.FindElements(locator));
      texts := script.Texts(locator);
    }

    /** `driver.current_url` */
    method CurrentUrl(read: UrlRead) returns (ok: bool, url: string)
      modifies this
      ensures Ran(old(trace), old(connection), [Action.CurrentUrl(read)], trace, connection, ok)
      ensures url == script.Url(read)
    {
      ok := Perform(Action.CurrentUrl(read));
      url := script.Url(read);
    }

    /** `element.send_keys(text)` */
    method SendKeys(field: Locator, text: string) returns (ok: bool)
      modifies this
      ensures Ran(old(trace), old(connection), [Action.SendKeys(field, text)], trace, connection, ok)
    {
      ok := Perform(Action.SendKeys(field, text));
    }

    /** `element.click()` */
    method Click(target: Locator) returns (ok: bool)
      modifies this
      ensures Ran(old(trace), old(connection), [Action.Click(target)], trace, connection, ok)
    {
      ok := Perform(Action.Click(target));
    }

    /** `time.sleep(seconds)`: never touches the browser, so it always runs. */
    method Sleep(seconds: nat)
      modifies this
      ensures Ran(old(trace), old(connection), [Action.Sleep(seconds)], trace, connection, true)
    {
      var ok := Perform(Action.Sleep(seconds));
    }

    /** `print(...)` */
    method Say(message: Message)
      modifies this
      ensures Ran(old(trace), old(connection), [Action.Say(message)], trace, connection, true)
    {
      var ok := Perform(Action.Say(message));
    }
  }
}

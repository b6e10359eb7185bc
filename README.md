# LinkedIn login bot: a Dafny model of its core

This project models the core of a bot that logs in to LinkedIn by driving a
browser, and proves properties of that model. It covers:

- `LinkedInAuthenticator`: the login flow (`start`, `is_logged_in`,
  `wait_for_page_load`, `handle_login`, `enter_credentials`,
  `submit_login_form`, `handle_security_check`);
- `LinkedInBotState` and `LinkedInBotFacade`: the six setup flags, the
  precondition check, and the facade that stores credentials and starts the
  login;
- the checks `main.py` runs before anything starts: `validate_email`,
  `validate_config`, `validate_secrets`, `find_file` and
  `validate_data_folder`.

Modules:

- `Errors`: the Python exceptions the code raises or lets escape, plus the
  `Option`, `Result` and `Outcome` wrappers.
- `PyStrings`: the string operations the code uses. These are `in` on
  strings, `lower`, `strip`, `replace('_', ' ')`, `capitalize` and `join`.
  Two index helpers, the first and the last position of a character, serve
  the scan that decides the e-mail pattern and the last-dot rule of
  `Path.suffix`.
- `Values`: a parsed YAML value with Python truthiness, `isinstance` (a
  `bool` is an `int`) and `str()`.
- `Browser`: the browser as a scripted oracle. Each wait, element lookup and
  URL read of the flow has one scripted answer. The `Driver` class records
  every command, sleep and printed message as a trace of actions.
  - A `Connection` may refuse a command after a given number of commands.
    That command then raises a `WebDriverException`, which nothing in the
    flow catches. A refusal stands for any `WebDriverException` a browser
    command raises: a dropped connection, an element that cannot be typed
    into or clicked, a stale element. The model represents each as the
    connection refusing that command and every later one.
  - `Cut` is the part of a trace that runs before the first refused command.
  - `Ran` ties the trace a method leaves to the trace its specification
    function gives.
- `Authentication`: the class `Authenticator` over a `Driver`.
  - Each method is proved against a function (`StartActions`,
    `HandleLoginActions`, ...). That function is the trace the method
    produces on a stable connection.
  - When a command is refused, the method leaves the prefix of that trace that
    ran, and returns `false`.
  - The lemmas state what those traces do and do not contain.
- `Facade`: the classes `BotState` and `BotFacade`. The login component is
  an `Authenticator`.
- `Config`: the e-mail pattern, `validate_config` and `validate_secrets`.
  - The regular expression is a declarative predicate.
  - The executable `ValidateEmail` is a scan: the first `@` and the last `.`.
  - The two are proved equal, including the one trailing newline that `$`
    lets through.
- `Files`: `find_file` over a directory listing and `validate_data_folder`
  over a file system given as a set of existing paths and a set of
  directories.

Behaviour of the code that the model keeps, including where it is
surprising:

- `start` returns nothing. Its outcome is the trace of printed messages.
  The only failure that escapes it is any `WebDriverException` a browser
  command raises (a dropped connection, an element that cannot be typed into
  or clicked, a stale element). The model represents each as the connection
  refusing that command and every later one.
- A username field that never appears does not abort the login. The
  `TimeoutException` is caught inside `enter_credentials`. `handle_login` then
  still looks up and clicks the submit button, and sleeps 35 seconds
  (`UsernameTimeoutStillSubmits`).
- A missing password field raises `NoSuchElementException`. `handle_login`
  catches it and skips the submit (`MissingPasswordSkipsSubmit`).
- `start_login` sets `logged_in` whenever `start` returns normally, including
  when the credentials were rejected or the challenge timed out. Only a
  `WebDriverException` escaping `start` keeps the flag false.
- `set_parameters` never sets `parameters_set`. It stores the parameters and
  then reads `self.apply_component`, which the facade never assigns, so it
  raises `AttributeError`.
- Precondition failures raise `ValueError`.

## Model

| member | source | states |
|---|---|---|
| Browser.Cut | utils/linkedIn_authenticator.py:18-23 | the part of a flow that runs before the connection drops is a prefix of it, and the whole flow exactly when it completes |
| Browser.DroppedStaysDropped | utils/linkedIn_authenticator.py:18-23 | once a command is refused, every later command is refused too: nothing in the flow catches `WebDriverException` |
| Browser.StableRunsAll | utils/linkedIn_authenticator.py:18-23 | on a stable connection the whole flow runs and the connection stays stable |
| Browser.CompletesWithinBudget | utils/linkedIn_authenticator.py:18-23 | a connection that drops after n commands runs a flow to the end iff the flow issues at most n commands |
| Authentication.StartWithinBudget | utils/linkedIn_authenticator.py:18-23 | on a connection that drops after n commands, `start` returns iff it issues at most n browser commands, and with an active session it issues exactly five |
| Authentication.AnyStartAPostIsExists | utils/linkedIn_authenticator.py:105-106 | the `any(...)` test holds iff some share-box text, stripped, is exactly "Start a post" |
| Authentication.SessionCheck | utils/linkedIn_authenticator.py:99-111 | `is_logged_in` opens the feed first; a session counts as active iff the marker wait succeeds and some marker reads "Start a post"; on a timeout nothing follows the wait |
| Authentication.PageLoadTimeoutOnlyReported | utils/linkedIn_authenticator.py:18-21 | `start` prints, opens the home page, then waits for the page; a page-load timeout only inserts its message, and the rest of the flow is identical |
| Authentication.ActiveSessionSkipsLogin | utils/linkedIn_authenticator.py:22-23 | with an active session `start` never opens the login page, types, clicks or sleeps |
| Authentication.LoginOnlyWithoutSession | utils/linkedIn_authenticator.py:22-23 | the login page is opened iff no active session was found |
| Authentication.LoginPageOnFeedReturnsAtOnce | utils/linkedIn_authenticator.py:53-58 | when the login page URL contains "feed", `handle_login` prints, navigates, reads the URL, prints "already logged in" and does nothing else |
| Authentication.EmailTypedBeforePassword | utils/linkedIn_authenticator.py:68-77 | the email is typed iff the username wait succeeds, then the password field is looked up; the password is typed iff that field is present, and last |
| Authentication.StartIsPreambleThenAttempt | utils/linkedIn_authenticator.py:53-66 | without a session and off the feed, `start` is navigation, waits and messages followed by one credential attempt |
| Authentication.UsernameTimeoutStillSubmits | utils/linkedIn_authenticator.py:59-64 | when the username field never appears nothing is typed, yet the submit button is looked up, and clicked iff it is present |
| Authentication.MissingPasswordSkipsSubmit | utils/linkedIn_authenticator.py:59-64 | a missing password field after the email is typed reports "could not log in", never looks for or clicks the submit button, and still sleeps |
| Authentication.SettleSleepThenChallenge | utils/linkedIn_authenticator.py:64-66 | the 35-second sleep happens iff a credential attempt was made, and the security check then runs iff the settled URL contains "challenge" |
| Authentication.SecurityCheckOutcomes | utils/linkedIn_authenticator.py:86-97 | the security check ends with "completed" iff the challenge URL and then the feed URL were reached in time, else "not completed"; the 300-second wait happens iff the challenge URL was reached |
| Authentication.Authenticator.constructor | utils/linkedIn_authenticator.py:9-12 | keeps the driver, with empty email and password |
| Authentication.Authenticator.SetSecrets | utils/linkedIn_authenticator.py:14-16 | stores the email and password |
| Authentication.Authenticator.Start | utils/linkedIn_authenticator.py:18-23 | leaves exactly the part of `StartActions` that runs on the connection, and returns true iff all of it ran |
| Authentication.Authenticator.WaitForPageLoad | utils/linkedIn_authenticator.py:113-119 | waits for `document.readyState` with the given bound, reporting a timeout without raising |
| Authentication.Authenticator.IsLoggedIn | utils/linkedIn_authenticator.py:99-111 | runs the session check and, when the connection holds, answers `SessionActive` of the browser |
| Authentication.Authenticator.HandleLogin | utils/linkedIn_authenticator.py:53-66 | runs `HandleLoginActions`: the feed short-cut, or credentials, submit (skipped on a missing password field), sleep and the challenge check |
| Authentication.Authenticator.Attempt | utils/linkedIn_authenticator.py:59-64 | runs `AttemptActions`: the credentials, then "could not log in" on a missing password field or else the submit, then settling |
| Authentication.Authenticator.Settle | utils/linkedIn_authenticator.py:64-66 | runs `SettleActions`: the 35-second sleep, the URL read, and the security check iff the URL contains "challenge" |
| Authentication.Authenticator.EnterCredentials | utils/linkedIn_authenticator.py:68-77 | runs `EnterCredentialsActions` and reports whether the password field was missing (the escaping `NoSuchElementException`) |
| Authentication.Authenticator.SubmitLoginForm | utils/linkedIn_authenticator.py:79-84 | clicks the submit button if present, otherwise reports it missing |
| Authentication.Authenticator.HandleSecurityCheck | utils/linkedIn_authenticator.py:86-97 | runs `SecurityCheckActions`: the 10-second challenge wait, then the 300-second feed wait |
| Facade.NameIsSnakeCase | utils/linkedIn_bot_facade.py:6-11 | every flag's attribute name is non-empty, lower-case letters and underscores, starting with a letter |
| Facade.UnsetMessageSpellsName | utils/linkedIn_bot_facade.py:16 | the message for an unset flag is its attribute name with the first letter upper-cased and underscores as spaces, followed by " must be set before proceeding." |
| Facade.ValidateNonEmpty | utils/linkedIn_bot_facade.py:47-49 | passes iff the value is truthy, else `ValueError("<name> cannot be empty.")` |
| Facade.BotState.constructor | utils/linkedIn_bot_facade.py:2-3 | a new state has all six flags false |
| Facade.BotState.Reset | utils/linkedIn_bot_facade.py:5-11 | clears all six flags |
| Facade.BotState.ValidateState | utils/linkedIn_bot_facade.py:13-16 | passes iff every required flag is set; otherwise raises `ValueError` naming the first unset flag in list order |
| Facade.BotFacade.constructor | utils/linkedIn_bot_facade.py:19-24 | a fresh state with all flags false, and no email, password or parameters |
| Facade.BotFacade.SetSecrets | utils/linkedIn_bot_facade.py:27-32 | an empty email, then an empty password, is refused with nothing changed; otherwise stores both and sets only `credentials_set`; the facade invariant is kept |
| Facade.BotFacade.SetParameters | utils/linkedIn_bot_facade.py:34-38 | empty parameters are refused; other parameters are stored, then `AttributeError("apply_component")` is raised and no flag changes |
| Facade.BotFacade.StartLogin | utils/linkedIn_bot_facade.py:40-44 | without credentials it raises the "Credentials set" error and touches nothing. Otherwise it hands the stored credentials to the login component and runs `start`. `logged_in` becomes true iff `start` returned; on a stable connection it always does. No other flag changes |
| Config.ShapedIsFullMatch | main.py:23 | the first-`@`/last-`.` scan accepts a string iff some split of it matches the pattern |
| Config.ValidateEmailIsPattern | main.py:22-23 | `validate_email` accepts a string iff the anchored pattern matches it, with or without one trailing newline |
| Config.AcceptedHasOneAt | main.py:22-23 | an address that `validate_email` accepts contains exactly one `@`, and not as its first character |
| Config.AcceptsPlusAndSubdomain | main.py:23 | an address with `+` in the local part and a subdomain is accepted |
| Config.AcceptsTrailingNewline | main.py:23 | an address followed by one newline is accepted |
| Config.RejectsOneLetterDomain | main.py:23 | a one-letter top-level domain is refused |
| Config.RejectsSecondAt | main.py:23 | two `@` in a row are refused |
| Config.BlacklistNeverRequired | main.py:51-58 | no required key is a blacklist key, so neither default-to-empty-list branch can run |
| Config.ValidateConfig | main.py:36-61 | a non-mapping raises `TypeError`, a missing `experience` `KeyError`, an `experience` without `keys` `AttributeError`; the document is returned unchanged iff every required key is present with its type, otherwise the first bad key is reported as missing or of the wrong type; the blacklist defaults are never reached |
| Config.BooleansPassAsYears | main.py:55 | a boolean passes as an integer year, an integer does not pass as `current_working` |
| Config.Membership | main.py:69 | `in` on anything but a mapping, string or list raises `TypeError`; otherwise it answers true iff the key is a key of the mapping, a substring of the string or an element of the list |
| Config.ValidateSecrets | main.py:63-77 | the first missing mandatory secret is reported by name; then, in this order, non-mapping documents and non-string emails raise `TypeError`, a bad email and a falsy password raise their own `ConfigError`; otherwise the email and `str()` of the password are returned |
| Config.AcceptedSecrets | main.py:71-77 | when `validate_secrets` returns, the e-mail is the stored string, matches the anchored pattern and holds exactly one `@`, and the password was truthy and is returned as `str()` of it |
| Files.Suffix | main.py:82 | the suffix is non-empty iff the name has a dot that is neither its first nor its last character; it then runs from the last dot to the end of the name, dot-free after the dot |
| Files.SuffixExamples | main.py:82 | ".yaml" for "secrets.yaml", ".gz" for "archive.tar.gz", and nothing for ".profile", "notes." and "README" |
| Files.FirstQualifying | main.py:82 | the index of the first qualifying entry, no earlier entry qualifying |
| Files.FindFile | main.py:80-82 | `None` iff no entry qualifies; otherwise the folder joined with the first qualifying entry in listing order |
| Files.FindFileIgnoresCase | main.py:82 | lower-casing the name fragment and the extension does not change the result |
| Files.MissingFiles | main.py:90 | a name is reported iff it is required and its path does not exist |
| Files.ValidateDataFolder | main.py:84-97 | a folder that is not a directory is refused by name; success iff both required files exist, returning their two paths; any other failure is a `FileNotFoundError` with a missing file |
| Files.MissingInOrder | main.py:90 | the missing files are listed in required order |
| Files.MissingFilesMessage | main.py:93-97 | the result for each of the four combinations of present and missing files |
| Files.BothMissingMessage | main.py:93 | both missing names are joined with ", " |

## Left out

- Browser bootstrap (`init_browser`), `run_bot`, `main` and command-line parsing are not part of this model.
- `validate_yaml_file` is not modelled: every check starts from the document the YAML loader produced.
- `handle_user_profile` and `handle_experience_component` are not modelled. `start` never calls them.
- Selenium itself is not modelled. Each wait, lookup and URL read answers from a script. Any `WebDriverException` a browser command raises (a dropped connection, `ElementNotInteractableException` from `send_keys`, `ElementClickInterceptedException` from `click`, `StaleElementReferenceException` from `.text`) is modelled as the connection refusing that command and every later one. That holds within one `start`, which the exception ends, but not of a real browser across calls.
- One `Driver` models one login attempt: its script is fixed for its lifetime and a refused connection stays refused, so a second `start` on the same driver (a retried `start_login`) replays the first attempt's answers.
- Each printed line is recorded as one message value, not as its text. The print of the `experience` keys in `validate_config` is not recorded.
- Reading `.text` from the share-box elements is folded into `find_elements`: the script answers with their texts.
- Sleeping and waiting are recorded in the trace with their durations; time itself is not modelled.
- Facade.BotState.ValidateState: takes only the six flag names. A `getattr` of any other attribute name, which raises `AttributeError`, is not modelled.
- A `None` driver, `None` credentials and non-string arguments to the facade's `set_secrets` are not modelled.
- `lower()`, `capitalize()` and `strip()` are modelled for ASCII letters. `strip()` uses Python's whitespace set.
- `Values.Value` has no YAML timestamp, binary or set values, and its mapping keys are strings only, while `yaml.safe_load` produces all of these. An unquoted date given as `title`, for example, would fail the `isinstance(..., str)` check; the model cannot express that input.
- `str()` of a list or mapping password is kept as the value itself rather than its Python text.
- Paths are joined with "/" and are not normalised.
- `find_file`'s directory listing is a parameter in the listing order the file system gives. A folder that does not exist, which raises in `iterdir`, is not modelled.
- `Path.suffix` follows Python up to 3.13, where a name ending in a dot has no suffix.

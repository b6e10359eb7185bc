/** `LinkedInBotState` and `LinkedInBotFacade`: six setup flags, and a facade
    that checks its inputs and the flags before handing the credentials to
    the login component and starting it. */
module Facade {
  import opened Errors
  import opened Values
  import opened PyStrings
  import opened Browser
  import opened Authentication

  /** The six flags, one per attribute of the state object. */
  datatype Flag = CredentialsSet | ApiKeySet | JobApplicationProfileSet | GptAnswererSet | ParametersSet | LoggedIn

  /** The attribute name `validate_state` is given for each flag. */
  function Name(f: Flag): string {
    match f
    case CredentialsSet => "credentials_set"
    case ApiKeySet => "api_key_set"
    case JobApplicationProfileSet => "job_application_profile_set"
    case GptAnswererSet => "gpt_answerer_set"
    case ParametersSet => "parameters_set"
    case LoggedIn => "logged_in"
  }

  const UnsetSuffix: string := " must be set before proceeding."

  /** The message `validate_state` raises for an unset flag. */
  function UnsetMessage(f: Flag): string {
    Capitalize(UnderscoresToSpaces(Name(f))) + UnsetSuffix
  }

  /** Every attribute name is lower-case letters and underscores, starting with a letter. */
  lemma NameIsSnakeCase(f: Flag)
    ensures |Name(f)| > 0 && IsAsciiLower(Name(f)[0])
    ensures forall i | 0 <= i < |Name(f)| :: IsAsciiLower(Name(f)[i]) || Name(f)[i] == '_'
  {
  }

  /** The message spells the attribute name with its first letter upper-cased
      and its underscores as spaces, then the fixed suffix. */
  lemma UnsetMessageSpellsName(f: Flag)
    ensures var n, m := Name(f), UnsetMessage(f);
            && |m| == |n| + |UnsetSuffix|
            && m[0] == UpperChar(n[0]) && IsAsciiUpper(m[0])
            && (forall i | 1 <= i < |n| :: m[i] == if n[i] == '_' then ' ' else n[i])
            && m[|n|..] == UnsetSuffix
  {
    NameIsSnakeCase(f);
    SnakeCaseMessage(Name(f));
  }

  /** The same, for any snake-case name. */
  lemma SnakeCaseMessage(n: string)
    requires |n| > 0 && IsAsciiLower(n[0])
    requires forall i | 0 <= i < |n| :: IsAsciiLower(n[i]) || n[i] == '_'
    ensures var m := Capitalize(UnderscoresToSpaces(n)) + UnsetSuffix;
            && |m| == |n| + |UnsetSuffix|
            && m[0] == UpperChar(n[0]) && IsAsciiUpper(m[0])
            && (forall i | 1 <= i < |n| :: m[i] == if n[i] == '_' then ' ' else n[i])
            && m[|n|..] == UnsetSuffix
  {
    var spaced := UnderscoresToSpaces(n);
    var rest := spaced[1..];
    assert forall i | 0 <= i < |rest| :: rest[i] == spaced[i + 1];
    LowerKeepsLowercase(rest);
    assert Capitalize(spaced) == [UpperChar(n[0])] + rest;
  }

  function EmptyMessage(name: string): string {
    name + " cannot be empty."
  }

  /** `_validate_non_empty`: a falsy value is refused with a message naming it. */
  function ValidateNonEmpty(value: Value, name: string): (r: Outcome)
    ensures r.Pass? <==> Truthy(value)
    ensures r.Fail? ==> r.error == ValueError(EmptyMessage(name))
  {
    if !Truthy(value) then Fail(ValueError(EmptyMessage(name))) else Pass
  }

  /** The six flags at one moment. */
  datatype Flags = Flags(credentialsSet: bool, apiKeySet: bool, jobApplicationProfileSet: bool,
                         gptAnswererSet: bool, parametersSet: bool, loggedIn: bool)

  class BotState {
    var credentialsSet: bool
    var apiKeySet: bool
    var jobApplicationProfileSet: bool
    var gptAnswererSet: bool
    var parametersSet: bool
    var loggedIn: bool

    function IsSet(f: Flag): bool
      reads this
    {
      match f
      case CredentialsSet => credentialsSet
      case ApiKeySet => apiKeySet
      case JobApplicationProfileSet => jobApplicationProfileSet
      case GptAnswererSet => gptAnswererSet
      case ParametersSet => parametersSet
      case LoggedIn => loggedIn
    }

    function Snapshot(): Flags
      reads this
    {
      Flags(credentialsSet, apiKeySet, jobApplicationProfileSet, gptAnswererSet, parametersSet, loggedIn)
    }

    constructor ()
      ensures forall f :: !IsSet(f)
    {
      new;
      Reset();
    }

    method Reset()
      modifies this
      ensures forall f :: !IsSet(f)
    {
      credentialsSet := false;
      apiKeySet := false;
      jobApplicationProfileSet := false;
      gptAnswererSet := false;
      parametersSet := false;
      loggedIn := false;
    }

    /** Passes when every required flag is set; otherwise raises for the
        first unset one in list order. */
    method ValidateState(required: seq<Flag>) returns (r: Outcome)
      ensures r.Pass? <==> forall j :: 0 <= j < |required| ==> IsSet(required[j])
      ensures r.Fail? ==>
                exists i :: 0 <= i < |required| && !IsSet(required[i])
                  && (forall j :: 0 <= j < i ==> IsSet(required[j]))
                  && r.error == ValueError(UnsetMessage(required[i]))
    {
      var i := 0;
      while i < |required|
        invariant 0 <= i <= |required|
        invariant forall j :: 0 <= j < i ==> IsSet(required[j])
      {
        if !IsSet(required[i]) {
          return Fail(ValueError(UnsetMessage(required[i])));
        }
        i := i + 1;
      }
      return Pass;
    }
  }

  class BotFacade {
    const login: Authenticator
    const state: BotState
    var email: Option<string>
    var password: Option<string>
    var parameters: Option<Value>

    /** Credentials are stored whenever the flag says so, and a login is only
        recorded after credentials. */
    ghost predicate Valid()
      reads this, state
    {
      && (state.credentialsSet ==> email.Some? && password.Some?)
      && (email.Some? ==> email.value != "")
      && (password.Some? ==> password.value != "")
      && (state.loggedIn ==> state.credentialsSet)
    }

    constructor (login: Authenticator)
      ensures Valid() && fresh(state)
      ensures this.login == login
      ensures forall f :: !state.IsSet(f)
      ensures email == None && password == None && parameters == None
    {
      this.login := login;
      state := new BotState();
      email := None;
      password := None;
      parameters := None;
      new;
      assert !state.IsSet(CredentialsSet) && !state.IsSet(LoggedIn);
    }

    method SetSecrets(email: string, password: string) returns (r: Outcome)
      requires Valid()
      modifies this, state
      ensures Valid()
      ensures r.Pass? <==> email != "" && password != ""
      ensures email == "" ==> r == Fail(ValueError(EmptyMessage("Email")))
      ensures email != "" && password == "" ==> r == Fail(ValueError(EmptyMessage("Password")))
      ensures r.Fail? ==> this.email == old(this.email) && this.password == old(this.password)
                          && state.Snapshot() == old(state.Snapshot())
      ensures r.Pass? ==> this.email == Some(email) && this.password == Some(password)
                          && state.Snapshot() == old(state.Snapshot()).(credentialsSet := true)
      ensures parameters == old(parameters)
    {
      r := ValidateNonEmpty(Str(email), "Email");
      if r.Fail? {
        return;
      }
      r := ValidateNonEmpty(Str(password), "Password");
      if r.Fail? {
        return;
      }
      this.email := Some(email);
      this.password := Some(password);
      state.credentialsSet := true;
    }

    /** Never completes: after storing non-empty parameters it looks up
        `apply_component`, an attribute the facade never assigns, so the
        `parameters_set` flag is never reached. */
    method SetParameters(parameters: Value) returns (r: Outcome)
      requires Valid()
      modifies this
      ensures Valid()
      ensures !Truthy(parameters) ==>
                r == Fail(ValueError(EmptyMessage("Parameters"))) && this.parameters == old(this.parameters)
      ensures Truthy(parameters) ==>
                r == Fail(AttributeError("apply_component")) && this.parameters == Some(parameters)
      ensures email == old(email) && password == old(password)
    {
      r := ValidateNonEmpty(parameters, "Parameters");
      if r.Fail? {
        return;
      }
      this.parameters := Some(parameters);
      r := Fail(AttributeError("apply_component"));
    }

    method StartLogin() returns (r: Outcome)
      requires Valid()
      modifies state, login, login.driver
      ensures Valid()
      ensures !old(state.credentialsSet) ==>
                && r == Fail(ValueError(UnsetMessage(CredentialsSet)))
                && unchanged(state) && unchanged(login) && unchanged(login.driver)
      ensures old(state.credentialsSet) ==>
                && login.email == email.value && login.password == password.value
                && Ran(old(login.driver.trace), old(login.driver.connection),
                       StartActions(login.driver.script, email.value, password.value),
                       login.driver.trace, login.driver.connection, r.Pass?)
                && (r.Fail? ==> r.error == WebDriverError)
                && (old(login.driver.connection) == Stable ==> r == Pass)
      ensures state.Snapshot() == old(state.Snapshot()).(loggedIn := old(state.loggedIn) || r.Pass?)
    {
      r := state.ValidateState([CredentialsSet]);
      if r.Fail? {
        return;
      }
      assert state.IsSet([CredentialsSet][0]);
      login.SetSecrets(email.value, password.value);
      var ok := login.Start();
      StableRunsAll(StartActions(login.driver.script, email.value, password.value));
      if !ok {
        return Fail(WebDriverError);
      }
      state.loggedIn := true;
    }
  }
}

/** `ConfigValidator`: the e-mail pattern, the work-experience config check
    and the secrets check. Loading the YAML files is not modelled; each check
    starts from the document the loader produced. */
module Config {
  import opened Errors
  import opened Values
  import opened PyStrings

  // ---------------------------------------------------------------------
  // E-mail pattern  ^[a-zA-Z0-9._%+-]+@[a-zA-Z0-9.-]+\.[a-zA-Z]{2,}$
  // ---------------------------------------------------------------------

  predicate IsLocalChar(c: char) {
    IsAsciiLetter(c) || IsDigit(c) || c == '.' || c == '_' || c == '%' || c == '+' || c == '-'
  }

  predicate IsDomainChar(c: char) {
    IsAsciiLetter(c) || IsDigit(c) || c == '.' || c == '-'
  }

  /** The whole of `s` matches the pattern with the `@` at `at` and the
      `.` before the top-level domain at `dot`. */
  predicate MatchesAt(s: string, at: int, dot: int) {
    && 0 < at && at + 1 < dot && dot + 3 <= |s|
    && s[at] == '@' && s[dot] == '.'
    && (forall i | 0 <= i < at :: IsLocalChar(s[i]))
    && (forall i | at < i < dot :: IsDomainChar(s[i]))
    && (forall i | dot < i < |s| :: IsAsciiLetter(s[i]))
  }

  ghost predicate FullMatch(s: string) {
    exists at, dot :: MatchesAt(s, at, dot)
  }

  /** `re.match` anchored by `^` and `$`: `$` also matches just before a
      final newline. */
  ghost predicate PatternMatches(s: string) {
    FullMatch(s) || (|s| > 0 && s[|s| - 1] == '\n' && FullMatch(s[..|s| - 1]))
  }

  /** The only split that can work: no local character is an `@` and no
      top-level-domain letter is a `.`. */
  predicate Shaped(s: string) {
    MatchesAt(s, FirstIndex(s, '@'), LastIndex(s, '.'))
  }

  /** `validate_email` */
  predicate ValidateEmail(email: string) {
    Shaped(email) || (|email| > 0 && email[|email| - 1] == '\n' && Shaped(email[..|email| - 1]))
  }

  lemma ShapedIsFullMatch(s: string)
    ensures Shaped(s) <==> FullMatch(s)
  {
    if FullMatch(s) {
      var at, dot :| MatchesAt(s, at, dot);
      var a := FirstIndex(s, '@');
      var d := LastIndex(s, '.');
      assert a == at;
      assert d == dot;
    }
  }

  lemma ValidateEmailIsPattern(email: string)
    ensures ValidateEmail(email) <==> PatternMatches(email)
  {
    ShapedIsFullMatch(email);
    if |email| > 0 {
      ShapedIsFullMatch(email[..|email| - 1]);
    }
  }

  /** An e-mail whose first `@` and last `.` are at `at` and `dot` and that
      matches around them is accepted. */
  lemma SplitAccepted(e: string, at: nat, dot: nat)
    requires at < |e| && e[at] == '@' && forall j | 0 <= j < at :: e[j] != '@'
    requires dot < |e| && e[dot] == '.' && forall j | dot < j < |e| :: e[j] != '.'
    requires MatchesAt(e, at, dot)
    ensures Shaped(e) && ValidateEmail(e)
  {
    FirstIndexAt(e, '@', at);
    LastIndexAt(e, '.', dot);
  }

  lemma AcceptsPlusAndSubdomain()
    ensures ValidateEmail("j+x@m.ex.io")
  {
    var e := "j+x@m.ex.io";
    assert forall i | 0 <= i < 3 :: IsLocalChar(e[i]);
    assert forall i | 3 < i < 8 :: IsDomainChar(e[i]);
    assert forall i | 8 < i < |e| :: IsAsciiLetter(e[i]);
    SplitAccepted(e, 3, 8);
  }

  /** `$` lets a single trailing newline through. */
  lemma AcceptsTrailingNewline()
    ensures ValidateEmail("j@ex.io\n")
  {
    var e, body := "j@ex.io\n", "j@ex.io";
    assert forall i | 0 <= i < 1 :: IsLocalChar(body[i]);
    assert forall i | 1 < i < 4 :: IsDomainChar(body[i]);
    assert forall i | 4 < i < |body| :: IsAsciiLetter(body[i]);
    SplitAccepted(body, 1, 4);
    assert e[..|e| - 1] == body;
  }

  lemma RejectsOneLetterDomain()
    ensures !ValidateEmail("j@ex.c")
  {
    assert LastIndex("j@ex.c", '.') == 4;
  }

  lemma RejectsSecondAt()
    ensures !ValidateEmail("j@@ex.io")
  {
    var e := "j@@ex.io";
    assert FirstIndex(e, '@') == 1;
    assert !IsDomainChar(e[2]);
  }

  // ---------------------------------------------------------------------
  // validate_config
  // ---------------------------------------------------------------------

  /** The required keys of the config document and their expected types,
      in the order they are checked. */
  const RequiredKeys: seq<(string, PyType)> := [
    ("title", StrType),
    ("company_name", StrType),
    ("start_month", StrType),
    ("start_year", IntType),
    ("end_month", StrType),
    ("end_year", IntType),
    ("current_working", BoolType)
  ]

  /** Keys that would default to an empty list; none of them is required. */
  const BlacklistKeys: seq<string> := ["companyBlacklist", "titleBlacklist"]

  lemma BlacklistNeverRequired()
    ensures forall i | 0 <= i < |RequiredKeys| :: RequiredKeys[i].0 !in BlacklistKeys
  {
  }

  predicate KeyOk(entries: map<string, Value>, key: (string, PyType)) {
    key.0 in entries && IsInstance(entries[key.0], key.1)
  }

  function KeyProblem(entries: map<string, Value>, key: (string, PyType), path: string): string {
    if key.0 !in entries then
      "Missing or invalid key '" + key.0 + "' in config file " + path
    else
      "Invalid type for key '" + key.0 + "' in config file " + path + ". Expected " + TypeRepr(key.1) + "."
  }

  /** The document has the `experience` mapping the check reads first. */
  predicate HasExperience(doc: Value) {
    doc.Dict? && "experience" in doc.entries && doc.entries["experience"].Dict?
  }

  /** Subscripting a non-mapping raises `TypeError`, a missing `experience`
      raises `KeyError`, and an `experience` that is not a mapping has no
      `keys`. Then every required key must be present with its type; the
      first one that is not is reported. The document is returned as it was. */
  method ValidateConfig(doc: Value, path: string) returns (r: Result<Value>)
    ensures !doc.Dict? ==> r == Err(TypeError)
    ensures doc.Dict? && "experience" !in doc.entries ==> r == Err(KeyError("experience"))
    ensures doc.Dict? && "experience" in doc.entries && !doc.entries["experience"].Dict? ==>
              r == Err(AttributeError("keys"))
    ensures r.Ok? <==> HasExperience(doc) && forall i | 0 <= i < |RequiredKeys| :: KeyOk(doc.entries, RequiredKeys[i])
    ensures r.Ok? ==> r.value == doc
    ensures HasExperience(doc) && r.Err? ==>
              exists i | 0 <= i < |RequiredKeys| ::
                && !KeyOk(doc.entries, RequiredKeys[i])
                && (forall j | 0 <= j < i :: KeyOk(doc.entries, RequiredKeys[j]))
                && r.error == ConfigError(KeyProblem(doc.entries, RequiredKeys[i], path))
  {
    if !doc.Dict? {
      return Err(TypeError);
    }
    if "experience" !in doc.entries {
      return Err(KeyError("experience"));
    }
    if !doc.entries["experience"].Dict? {
      return Err(AttributeError("keys"));
    }
    var parameters := doc.entries;
    var i := 0;
    while i < |RequiredKeys|
      invariant 0 <= i <= |RequiredKeys|
      invariant forall j | 0 <= j < i :: KeyOk(parameters, RequiredKeys[j])
    {
      var (key, expected) := RequiredKeys[i];
      if key !in parameters || !IsInstance(parameters[key], expected) {
        // The source would default a missing or null blacklist key to an
        // empty list here; no required key is one of them.
        if key in BlacklistKeys {
          BlacklistNeverRequired();
          assert false;
        }
        return Err(ConfigError(KeyProblem(parameters, RequiredKeys[i], path)));
      }
      i := i + 1;
    }
    return Ok(doc);
  }

  /** A boolean passes where an integer year is expected, but an integer
      does not pass for `current_working`. */
  lemma BooleansPassAsYears(entries: map<string, Value>, b: bool, n: int)
    ensures KeyOk(entries["start_year" := Bool(b)], ("start_year", IntType))
    ensures !KeyOk(entries["current_working" := Int(n)], ("current_working", BoolType))
  {
  }

  // ---------------------------------------------------------------------
  // validate_secrets
  // ---------------------------------------------------------------------

  const MandatorySecrets: seq<string> := ["email", "password"]

  /** Python's `key in container` for the shapes a YAML document can take:
      a key of a mapping, a substring of a string, an element of a list;
      anything else is not iterable. */
  function Membership(container: Value, key: string): (r: Result<bool>)
    ensures r.Err? <==> !(container.Dict? || container.Str? || container.List?)
    ensures r.Ok? ==> (r.value <==>
              || (container.Dict? && key in container.entries)
              || (container.Str? && Contains(container.s, key))
              || (container.List? && Str(key) in container.items))
  {
    match container
    case Dict(entries) => Ok(key in entries)
    case Str(s) => Ok(Contains(s, key))
    case List(items) => Ok(Str(key) in items)
    case _ => Err(TypeError)
  }

  function MissingSecret(key: string, path: string): string {
    "Missing secret '" + key + "' in file " + path
  }

  function InvalidEmail(path: string): string {
    "Invalid email format in secrets file " + path + "."
  }

  function EmptyPassword(path: string): string {
    "Password cannot be empty in secrets file " + path + "."
  }

  /** The pair `validate_secrets` returns: the e-mail and `str()` of the
      password. */
  datatype Credentials = Credentials(email: string, password: Printed)

  /** The first `count` mandatory secrets are all found. */
  predicate Present(secrets: Value, count: nat)
    requires count <= |MandatorySecrets|
    ensures Present(secrets, count) && count == 2 && secrets.Dict? ==>
              "email" in secrets.entries && "password" in secrets.entries
  {
    count == 0 || (Present(secrets, count - 1) && Membership(secrets, MandatorySecrets[count - 1]) == Ok(true))
  }

  /** What `validate_secrets` does once both secrets are found in a mapping:
      a non-string e-mail raises `TypeError`, then the format and the
      password are checked, else the pair is returned. */
  function CheckedSecrets(secrets: Value, path: string): Result<Credentials>
    requires secrets.Dict? && "email" in secrets.entries && "password" in secrets.entries
  {
    var email := secrets.entries["email"];
    var password := secrets.entries["password"];
    if !email.Str? then Err(TypeError)
    else if !ValidateEmail(email.s) then Err(ConfigError(InvalidEmail(path)))
    else if !Truthy(password) then Err(ConfigError(EmptyPassword(path)))
    else Ok(Credentials(email.s, PyStr(password)))
  }

  method ValidateSecrets(secrets: Value, path: string) returns (r: Result<Credentials>)
    ensures !(secrets.Dict? || secrets.Str? || secrets.List?) ==> r == Err(TypeError)
    ensures forall i | 0 <= i < |MandatorySecrets| ::
              Present(secrets, i) && Membership(secrets, MandatorySecrets[i]) == Ok(false) ==>
                r == Err(ConfigError(MissingSecret(MandatorySecrets[i], path)))
    ensures Present(secrets, 2) && !secrets.Dict? ==> r == Err(TypeError)
    ensures Present(secrets, 2) && secrets.Dict? ==> r == CheckedSecrets(secrets, path)
  {
    var i := 0;
    while i < |MandatorySecrets|
      invariant 0 <= i <= |MandatorySecrets|
      invariant Present(secrets, i)
    {
      var found := Membership(secrets, MandatorySecrets[i]);
      if found.Err? {
        return Err(TypeError);
      }
      if !found.value {
        assert !Present(secrets, 2) by {
          if i == 0 {
            assert !Present(secrets, 1);
          }
        }
        return Err(ConfigError(MissingSecret(MandatorySecrets[i], path)));
      }
      i := i + 1;
    }
    if !secrets.Dict? {
      return Err(TypeError);
    }
    var email := secrets.entries["email"];
    if !email.Str? {
      return Err(TypeError);
    }
    if !ValidateEmail(email.s) {
      return Err(ConfigError(InvalidEmail(path)));
    }
    var password := secrets.entries["password"];
    if !Truthy(password) {
      return Err(ConfigError(EmptyPassword(path)));
    }
    return Ok(Credentials(email.s, PyStr(password)));
  }

  /** Secrets that `validate_secrets` accepts yield their own e-mail, which
      matches the pattern and holds exactly one `@`, and `str()` of a truthy
      password. */
  lemma AcceptedSecrets(secrets: Value, path: string)
    requires secrets.Dict? && "email" in secrets.entries && "password" in secrets.entries
    requires CheckedSecrets(secrets, path).Ok?
    ensures var c := CheckedSecrets(secrets, path).value;
            && secrets.entries["email"] == Str(c.email)
            && PatternMatches(c.email)
            && (exists at | 0 < at < |c.email| ::
                  c.email[at] == '@' && forall j | 0 <= j < |c.email| && c.email[j] == '@' :: j == at)
            && Truthy(secrets.entries["password"])
            && c.password == PyStr(secrets.entries["password"])
  {
    var e := CheckedSecrets(secrets, path).value.email;
    ValidateEmailIsPattern(e);
    AcceptedHasOneAt(e);
  }

  lemma AcceptedHasOneAt(e: string)
    requires ValidateEmail(e)
    ensures exists at | 0 < at < |e| :: e[at] == '@' && forall j | 0 <= j < |e| && e[j] == '@' :: j == at
  {
    var body := if Shaped(e) then e else e[..|e| - 1];
    ShapedHasOneAt(body);
    var at := FirstIndex(body, '@');
    assert e[at] == body[at];
    forall j | 0 <= j < |e| && e[j] == '@'
      ensures j == at
    {
      if j < |body| {
        assert body[j] == e[j];
      }
    }
  }

  /** A shaped address has its first `@` as its only one. */
  lemma ShapedHasOneAt(s: string)
    requires Shaped(s)
    ensures 0 < FirstIndex(s, '@') < |s|
    ensures forall j | 0 <= j < |s| && s[j] == '@' :: j == FirstIndex(s, '@')
  {
    NoAtAfter(s, FirstIndex(s, '@'), LastIndex(s, '.'));
  }

  /** Past the `@` of a match, only domain characters, the dot and letters follow. */
  lemma NoAtAfter(s: string, at: int, dot: int)
    requires MatchesAt(s, at, dot)
    ensures forall j | at < j < |s| :: s[j] != '@'
  {
    forall j | at < j < |s|
      ensures s[j] != '@'
    {
      if j < dot {
        assert IsDomainChar(s[j]);
      } else if j > dot {
        assert IsAsciiLetter(s[j]);
      }
    }
  }
}

/**
 * The settings of the automation, read from the process environment (taken
 * here as a map from variable name to value), and the pre-flight check that
 * the variables it cannot do without are set.
 */
module Config {
  import opened Wrappers
  import opened Text

  /** The process environment after `.env` has been loaded. */
  type Env = map<string, string>

  /** `os.getenv(name, default)`: a variable that is set, even to "", wins over the default. */
  function GetEnv(env: Env, name: string, default: string): (v: string)
    ensures name in env ==> v == env[name]
    ensures v != default ==> name in env
  {
    if name in env then env[name] else default
  }

  /** `os.getenv(name)` with no default: `None` when the variable is unset. */
  function LookupEnv(env: Env, name: string): (r: Option<string>)
    ensures r.Some? <==> name in env
    ensures r.Some? ==> r.value == env[name]
  {
    if name in env then Some(env[name]) else None
  }

  /** Python truthiness of `os.getenv(name)`: set and not the empty string. */
  predicate IsSet(env: Env, name: string)
    ensures IsSet(env, name) <==> LookupEnv(env, name).Some? && LookupEnv(env, name).value != ""
    ensures IsSet(env, name) ==> forall default :: GetEnv(env, name, default) == env[name] != ""
  {
    name in env && env[name] != ""
  }

  /** A flag is on exactly when its (possibly defaulted) text is `True`, spelled just so. */
  function Flag(env: Env, name: string, default: string): bool
  {
    GetEnv(env, name, default) == "True"
  }

  /** `MAIL_USE_TLS`: on unless the variable is set to something other than `True`. */
  function MailUseTls(env: Env): (on: bool)
    ensures on <==> "MAIL_USE_TLS" !in env || env["MAIL_USE_TLS"] == "True"
  {
    Flag(env, "MAIL_USE_TLS", "True")
  }

  /** `MAIL_USE_SSL`: off unless the variable is set to exactly `True`. */
  function MailUseSsl(env: Env): (on: bool)
    ensures on <==> "MAIL_USE_SSL" in env && env["MAIL_USE_SSL"] == "True"
  {
    Flag(env, "MAIL_USE_SSL", "False")
  }

  /** The attributes of the `Config` class. */
  datatype Settings = Settings(
    mailServer: string,
    mailPort: nat,
    mailUsername: Option<string>,
    mailPassword: Option<string>,
    mailUseTls: bool,
    mailUseSsl: bool,
    toEmail: string,
    ccEmail: string,
    formUrl: string,
    yourName: string,
    contactNumber: string,
    yourEmail: string,
    yourAddress: string,
    pinCode: string,
    dateOfBirth: string,
    gender: string,
    verificationCode: string,
    githubRepo: string,
    resumePath: string
  )

  /** The defaults the `Config` class falls back to for an unset variable. */
  const DefaultMailServer := "smtp.gmail.com"
  const DefaultMailPort: nat := 587
  const DefaultToEmail := "tech@themedius.ai"
  const DefaultCcEmail := "hr@themedius.ai"
  const DefaultFormUrl := "https://forms.gle/WT68aV5UnPajeoSc8"
  const DefaultYourName := "Your Name"
  const DefaultContactNumber := "0000000000"
  const DefaultYourEmail := "your.email@example.com"
  const DefaultYourAddress := "Your Address"
  const DefaultPinCode := "000000"
  const DefaultDateOfBirth := "01/01/2000"
  const DefaultGender := "Male"
  const DefaultVerificationCode := "GNFPYC"
  const DefaultGithubRepo := "https://github.com/yourusername/repo"
  const DefaultResumePath := ""
  /** `SCREENSHOT_DIR`, which is also the directory `GoogleFormFiller` defaults to. */
  const ScreenshotDir := "screenshots"
  const ScreenshotFilename := "form_confirmation.png"

  /**
   * Evaluating the `Config` class body. The only step that can fail is
   * `int(...)` of a `MAIL_PORT` that is not a decimal literal, which raises
   * while the module is imported.
   */
  function Load(env: Env): (r: Result<Settings, ValueError>)
    ensures r.Failure? <==> "MAIL_PORT" in env && ParseDecimal(env["MAIL_PORT"]).None?
    ensures r.Success? ==> r.value.mailUseTls == MailUseTls(env) && r.value.mailUseSsl == MailUseSsl(env)
    ensures r.Success? && "MAIL_PORT" !in env ==> r.value.mailPort == DefaultMailPort
    ensures r.Success? && "MAIL_PORT" in env ==> ParseDecimal(env["MAIL_PORT"]) == Some(r.value.mailPort)
    ensures r.Success? ==>
      && r.value.mailServer == GetEnv(env, "MAIL_SERVER", DefaultMailServer)
      && r.value.mailUsername == LookupEnv(env, "MAIL_USERNAME")
      && r.value.mailPassword == LookupEnv(env, "MAIL_PASSWORD")
      && r.value.toEmail == GetEnv(env, "TO_EMAIL", DefaultToEmail)
      && r.value.ccEmail == GetEnv(env, "CC_EMAIL", DefaultCcEmail)
      && r.value.formUrl == GetEnv(env, "FORM_URL", DefaultFormUrl)
    ensures r.Success? ==>
      && r.value.yourName == GetEnv(env, "YOUR_NAME", DefaultYourName)
      && r.value.contactNumber == GetEnv(env, "CONTACT_NUMBER", DefaultContactNumber)
      && r.value.yourEmail == GetEnv(env, "YOUR_EMAIL", DefaultYourEmail)
      && r.value.yourAddress == GetEnv(env, "YOUR_ADDRESS", DefaultYourAddress)
      && r.value.pinCode == GetEnv(env, "PIN_CODE", DefaultPinCode)
      && r.value.dateOfBirth == GetEnv(env, "DATE_OF_BIRTH", DefaultDateOfBirth)
      && r.value.gender == GetEnv(env, "GENDER", DefaultGender)
      && r.value.verificationCode == GetEnv(env, "VERIFICATION_CODE", DefaultVerificationCode)
      && r.value.githubRepo == GetEnv(env, "GITHUB_REPO", DefaultGithubRepo)
      && r.value.resumePath == GetEnv(env, "RESUME_PATH", DefaultResumePath)
  {
    var port := if "MAIL_PORT" in env then ParseDecimal(env["MAIL_PORT"]) else Some(DefaultMailPort);
    if port.None? then
      Failure(ValueError("invalid literal for int() with base 10: '" + env["MAIL_PORT"] + "'"))
    else
      Success(Settings(
        mailServer := GetEnv(env, "MAIL_SERVER", DefaultMailServer),
        mailPort := port.value,
        mailUsername := LookupEnv(env, "MAIL_USERNAME"),
        mailPassword := LookupEnv(env, "MAIL_PASSWORD"),
        mailUseTls := MailUseTls(env),
        mailUseSsl := MailUseSsl(env),
        toEmail := GetEnv(env, "TO_EMAIL", DefaultToEmail),
        ccEmail := GetEnv(env, "CC_EMAIL", DefaultCcEmail),
        formUrl := GetEnv(env, "FORM_URL", DefaultFormUrl),
        yourName := GetEnv(env, "YOUR_NAME", DefaultYourName),
        contactNumber := GetEnv(env, "CONTACT_NUMBER", DefaultContactNumber),
        yourEmail := GetEnv(env, "YOUR_EMAIL", DefaultYourEmail),
        yourAddress := GetEnv(env, "YOUR_ADDRESS", DefaultYourAddress),
        pinCode := GetEnv(env, "PIN_CODE", DefaultPinCode),
        dateOfBirth := GetEnv(env, "DATE_OF_BIRTH", DefaultDateOfBirth),
        gender := GetEnv(env, "GENDER", DefaultGender),
        verificationCode := GetEnv(env, "VERIFICATION_CODE", DefaultVerificationCode),
        githubRepo := GetEnv(env, "GITHUB_REPO", DefaultGithubRepo),
        resumePath := GetEnv(env, "RESUME_PATH", DefaultResumePath)))
  }

  /** The variables `validate_config` insists on, in the order it checks them. */
  const RequiredVars: seq<string> := ["MAIL_USERNAME", "MAIL_PASSWORD", "YOUR_NAME", "GITHUB_REPO"]

  const MissingMessagePrefix := "Missing required environment variables: "

  /** The names among `names` whose variable is unset or empty, kept in the order of `names`. */
  function MissingAmong(env: Env, names: seq<string>): (missing: seq<string>)
    ensures forall v :: v in missing <==> v in names && !IsSet(env, v)
  {
    if names == [] then []
    else
      var last := names[|names| - 1];
      MissingAmong(env, names[..|names| - 1]) + (if IsSet(env, last) then [] else [last])
  }

  function MissingVars(env: Env): seq<string>
  {
    MissingAmong(env, RequiredVars)
  }

  /** `a` is `b` with some elements left out and the rest in the same order. */
  predicate IsSubsequence<T(==)>(a: seq<T>, b: seq<T>)
    decreases |b|
  {
    if a == [] then true
    else if b == [] then false
    else
      (a[|a| - 1] == b[|b| - 1] && IsSubsequence(a[..|a| - 1], b[..|b| - 1]))
      || IsSubsequence(a, b[..|b| - 1])
  }

  /** The missing names come in the order the required list gives them. */
  lemma {:induction false} MissingAmongInOrder(env: Env, names: seq<string>)
    ensures IsSubsequence(MissingAmong(env, names), names)
  {
    if names != [] {
      var init := names[..|names| - 1];
      MissingAmongInOrder(env, init);
      var m := MissingAmong(env, names);
      if !IsSet(env, names[|names| - 1]) {
        assert m[..|m| - 1] == MissingAmong(env, init);
      } else {
        assert m == MissingAmong(env, init);
      }
    }
  }

  /** `validate_config`: raise a ValueError naming every missing variable, else return True. */
  method ValidateConfig(env: Env) returns (r: Result<bool, ValueError>)
    ensures r.Failure? <==> exists v :: v in RequiredVars && !IsSet(env, v)
    ensures r.Success? ==> r.value
    ensures r.Failure? ==> r.error.message == MissingMessagePrefix + Join(MissingVars(env), ", ")
  {
    var missing: seq<string> := [];
    for i := 0 to |RequiredVars|
      invariant missing == MissingAmong(env, RequiredVars[..i])
    {
      var name := RequiredVars[i];
      assert RequiredVars[..i + 1][..i] == RequiredVars[..i];
      if !IsSet(env, name) {
        missing := missing + [name];
      }
    }
    assert RequiredVars[..|RequiredVars|] == RequiredVars;
    if missing != [] {
      assert missing[0] in missing;
      return Failure(ValueError(MissingMessagePrefix + Join(missing, ", ")));
    }
    return Success(true);
  }

  /**
   * The check reads the environment, not the `Config` attributes: an unset
   * YOUR_NAME or GITHUB_REPO is reported missing although the attribute
   * holds its default.
   */
  lemma ValidationIgnoresDefaults(env: Env)
    requires "YOUR_NAME" !in env && "GITHUB_REPO" !in env
    requires Load(env).Success?
    ensures Load(env).value.yourName == DefaultYourName && "YOUR_NAME" in MissingVars(env)
    ensures Load(env).value.githubRepo == DefaultGithubRepo && "GITHUB_REPO" in MissingVars(env)
  {
  }

  /** With only the mail user name set, the message names the other three in order. */
  lemma MissingMessageExample(user: string)
    requires user != ""
    ensures MissingMessagePrefix + Join(MissingVars(map["MAIL_USERNAME" := user]), ", ")
         == MissingMessagePrefix + "MAIL_PASSWORD" + ", " + "YOUR_NAME" + ", " + "GITHUB_REPO"
  {
    MissingVarsExample(user);
    JoinThree("MAIL_PASSWORD", "YOUR_NAME", "GITHUB_REPO", ", ");
  }

  lemma MissingVarsExample(user: string)
    requires user != ""
    ensures MissingVars(map["MAIL_USERNAME" := user]) == ["MAIL_PASSWORD", "YOUR_NAME", "GITHUB_REPO"]
  {
    var env := map["MAIL_USERNAME" := user];
    var r := RequiredVars;
    assert r[..1] == ["MAIL_USERNAME"] && r[..1][..0] == [];
    assert r[..2][..1] == r[..1] && r[..3][..2] == r[..2] && r[..3] == r[..|r| - 1];
    assert MissingAmong(env, r[..1]) == [];
    assert MissingAmong(env, r[..2]) == ["MAIL_PASSWORD"];
    assert MissingAmong(env, r[..3]) == ["MAIL_PASSWORD", "YOUR_NAME"];
  }
}

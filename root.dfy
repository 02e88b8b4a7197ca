/** pkg/cmd/root.go: the settings every subcommand shares. SetDefaults fills them
    from the environment, flag registration overwrites two of them, and the part of
    GetSTSCredentials before the network call checks them and derives the role ARN
    and the role session name of the AssumeRoleWithWebIdentity request. */
module Config {
  import opened Wrappers
  import opened Environ
  import opened Text
  import opened Strconv

  const PipelineIdVar := "CI_PIPELINE_ID"
  const ProjectSlugVar := "CI_PROJECT_PATH_SLUG"
  const AccountIdVar := "GITLAB_AWS_ACCOUNT_ID"
  const DurationSecondsVar := "GITLAB_AWS_DURATION_SECONDS"
  const TokenNameVar := "GITLAB_AWS_IDENTITY_TOKEN_NAME"
  const DefaultTokenVar := "GITLAB_AWS_IDENTITY_TOKEN"

  const RoleNamePrefix := "gitlab-"
  /** The `.57` of the `%.57s` verb that builds the role name from the slug. */
  const SlugRunes: nat := 57
  /** The AWS limit checked with Go's `len`, which counts bytes. */
  const MaxRoleNameBytes: nat := 64
  /** The default bound to the duration-seconds flag. */
  const DefaultDurationSeconds := 3600

  const ArnPrefix := "arn:aws:iam::"
  const ArnRoleInfix := ":role/"

  datatype ConfigError =
    | DurationNotPositive               // log.Fatalf in SetDefaults
    | RoleNameNotSet
    | RoleNameTooLong
    | AwsAccountNotSet
    | TokenVariableNotSet(variable: string)
    | Federation(message: string)       // an error of the STS session or call, passed on as is

  /** The text each error carries in the source (long literals are split in two
      only so that the verifier reads their characters). */
  function Message(e: ConfigError): string
  {
    match e
    case DurationNotPositive =>
      "the environment variable " + "GITLAB_AWS_DURATION_SECONDS is not a positive integer"
    case RoleNameNotSet =>
      "the role name is not set. " + "Perhaps the environment variable CI_PROJECT_PATH_SLUG is not present"
    case RoleNameTooLong =>
      "the role name exceeds the maximum " + "of 64 characters allowed by AWS"
    case AwsAccountNotSet =>
      "the AWS account is not set. " + "Use --aws-account or set the environment variable GITLAB_AWS_ACCOUNT_ID"
    case TokenVariableNotSet(v) =>
      "the environment variable " + v + " is not set"
    case Federation(m) => m
  }

  predicate IsValidationError(e: ConfigError)
  {
    e.RoleNameNotSet? || e.RoleNameTooLong? || e.AwsAccountNotSet? || e.TokenVariableNotSet?
  }

  /** The token error names its variable: two different variables give two
      different messages. */
  lemma TokenMessageNamesVariable(v1: string, v2: string)
    requires Message(TokenVariableNotSet(v1)) == Message(TokenVariableNotSet(v2))
    ensures v1 == v2
  {
    var head := "the environment variable ";
    var m := Message(TokenVariableNotSet(v1));
    assert |v1| == |v2|;
    assert v1 == m[|head|..|head| + |v1|];
    assert v2 == m[|head|..|head| + |v2|];
  }

  // The characters at which the validation messages part ways: index 4 tells the
  // role name, account and token messages apart, index 14 the two role name ones.

  lemma RoleNameNotSetMarks()
    ensures |Message(RoleNameNotSet)| > 14
    ensures Message(RoleNameNotSet)[4] == 'r' && Message(RoleNameNotSet)[14] == 'i'
  {
    var m := "the role name is not set. ";
    assert m[4] == 'r' && m[14] == 'i';
  }

  lemma RoleNameTooLongMarks()
    ensures |Message(RoleNameTooLong)| > 14
    ensures Message(RoleNameTooLong)[4] == 'r' && Message(RoleNameTooLong)[14] == 'e'
  {
    var m := "the role name exceeds the maximum ";
    assert m[4] == 'r' && m[14] == 'e';
  }

  lemma AwsAccountNotSetMarks()
    ensures |Message(AwsAccountNotSet)| > 14 && Message(AwsAccountNotSet)[4] == 'A'
  {
    var m := "the AWS account is not set. ";
    assert m[4] == 'A';
  }

  lemma TokenVariableNotSetMarks(v: string)
    ensures |Message(TokenVariableNotSet(v))| > 14 && Message(TokenVariableNotSet(v))[4] == 'e'
  {
    var m := "the environment variable ";
    assert m[4] == 'e';
  }

  /** Each check of GetSTSCredentials reports a message of its own. */
  lemma ValidationMessagesDistinct(e1: ConfigError, e2: ConfigError)
    requires IsValidationError(e1) && IsValidationError(e2) && e1 != e2
    ensures Message(e1) != Message(e2)
  {
    if e1.TokenVariableNotSet? && e2.TokenVariableNotSet? {
      if Message(e1) == Message(e2) {
        TokenMessageNamesVariable(e1.variable, e2.variable);
      }
    } else {
      RoleNameNotSetMarks();
      RoleNameTooLongMarks();
      AwsAccountNotSetMarks();
      if e1.TokenVariableNotSet? { TokenVariableNotSetMarks(e1.variable); }
      if e2.TokenVariableNotSet? { TokenVariableNotSetMarks(e2.variable); }
      var bothRoleName := (e1.RoleNameNotSet? || e1.RoleNameTooLong?) && (e2.RoleNameNotSet? || e2.RoleNameTooLong?);
      var i := if bothRoleName then 14 else 4;
      assert Message(e1)[i] != Message(e2)[i];
    }
  }

  /** The values of the RootCommand fields that the model tracks. */
  datatype Settings = Settings(
    roleName: string,
    roleSessionName: string,
    awsAccount: string,
    durationSeconds: int,
    pipelineId: string,
    webIdentityTokenName: string,
    webIdentityToken: string,
    roleArn: string,
    credentials: Option<StsCredentials>)

  /** The fields of a freshly declared `&RootCommand{}`. */
  const ZeroSettings := Settings("", "", "", 0, "", "", "", "", None)

  /** What GetSTSCredentials sends to STS, and what STS answers. The session
      creation and the call itself are outside the model: they are a function from
      the request to the response. */
  datatype StsRequest = StsRequest(
    roleArn: string,
    roleSessionName: string,
    webIdentityToken: string,
    durationSeconds: int)

  datatype StsResponse = Issued(credentials: StsCredentials) | Refused(message: string)

  function RequestOf(s: Settings): StsRequest
  {
    StsRequest(s.roleArn, s.roleSessionName, s.webIdentityToken, s.durationSeconds)
  }

  // ---------------------------------------------------------------------------
  // SetDefaults (root.go:48-70)

  /** `fmt.Sprintf("gitlab-%.57s", slug)`: the prefix and at most 57 runes of the slug. */
  function RoleNameFromSlug(slug: string): (r: string)
    ensures |r| <= SlugRunes + |RoleNamePrefix| == MaxRoleNameBytes
    ensures |slug| <= SlugRunes ==> r == RoleNamePrefix + slug
    ensures |slug| > SlugRunes ==> r == RoleNamePrefix + slug[..SlugRunes]
  {
    RoleNamePrefix + TruncateRunes(slug, SlugRunes)
  }

  /** For an ASCII slug the 64 runes are 64 bytes, so the role name always passes
      the length check of GetSTSCredentials. */
  lemma AsciiSlugRoleNameFits(slug: string)
    requires IsAscii(slug)
    ensures Utf8Length(RoleNameFromSlug(slug)) <= MaxRoleNameBytes
  {
    var r := RoleNameFromSlug(slug);
    forall i | 0 <= i < |r| ensures r[i] as int < 0x80 {
      if i >= |RoleNamePrefix| {
        assert r[i] == slug[i - |RoleNamePrefix|];
      }
    }
    AsciiUtf8Length(r);
  }

  /** How SetDefaults reads GITLAB_AWS_DURATION_SECONDS. */
  datatype DurationSetting = Unset | Seconds(seconds: int) | NotPositive

  function ParseDuration(value: string): (d: DurationSetting)
    ensures d.Unset? <==> value == ""
    ensures d.Seconds? <==> value != "" && Atoi(value).Some? && Atoi(value).value > 0
    ensures d.Seconds? ==> Atoi(value) == Some(d.seconds) && 0 < d.seconds <= MaxInt64
  {
    if value == "" then Unset
    else
      var seconds := Atoi(value);
      if seconds.Some? && seconds.value > 0 then Seconds(seconds.value) else NotPositive
  }

  /** Every positive 64-bit count of seconds, written in decimal, is accepted as itself. */
  lemma ParseDurationFormatted(n: nat)
    requires 0 < n <= MaxInt64
    ensures ParseDuration(FormatNat(n)) == Seconds(n)
  {
    AtoiFormatNat(n);
  }

  /** The values that make SetDefaults terminate: root_test.go:96-104 feeds the
      first one and expects the default instead. */
  lemma ParseDurationRejects()
    ensures ParseDuration("invalid_duration") == NotPositive
    ensures ParseDuration("0") == NotPositive
    ensures ParseDuration("-1800") == NotPositive
    ensures ParseDuration("18 00") == NotPositive
  {
    AtoiRejectsNonDigit("invalid_duration", 0);
    AtoiRejectsNonDigit("18 00", 2);
    assert DigitsValue("0") == 0;
    assert DigitsValue("1800") == 1800 by {
      assert "1800"[..3] == "180" && "180"[..2] == "18" && "18"[..1] == "1";
    }
  }

  /** The variable that holds the identity token. */
  function TokenVariableName(env: Env): (name: string)
    ensures name != ""
    ensures Getenv(env, TokenNameVar) != "" ==> name == Getenv(env, TokenNameVar)
    ensures Getenv(env, TokenNameVar) == "" ==> name == DefaultTokenVar
  {
    var name := Getenv(env, TokenNameVar);
    if name == "" then DefaultTokenVar else name
  }

  /** The new settings and the outcome of SetDefaults on settings `s`. The
      log.Fatalf of root.go:63 is the outcome Fail(DurationNotPositive); the
      fields assigned before it keep their new values. */
  function SetDefaultsResult(env: Env, s: Settings): (r: (Settings, Outcome<ConfigError>))
    ensures r.0.pipelineId == Getenv(env, PipelineIdVar)
    ensures Getenv(env, ProjectSlugVar) != "" ==> r.0.roleName == RoleNameFromSlug(Getenv(env, ProjectSlugVar))
    ensures Getenv(env, ProjectSlugVar) == "" ==> r.0.roleName == s.roleName
    ensures Getenv(env, AccountIdVar) != "" ==> r.0.awsAccount == Getenv(env, AccountIdVar)
    ensures Getenv(env, AccountIdVar) == "" ==> r.0.awsAccount == s.awsAccount
    ensures r.1.Fail? <==> ParseDuration(Getenv(env, DurationSecondsVar)).NotPositive?
    ensures r.1.Fail? ==> r.1.error == DurationNotPositive
    ensures r.0.durationSeconds ==
      match ParseDuration(Getenv(env, DurationSecondsVar))
      case Seconds(n) => n
      case _ => s.durationSeconds
    ensures r.0.webIdentityTokenName == if r.1.Pass? then TokenVariableName(env) else s.webIdentityTokenName
    ensures r.0.roleSessionName == s.roleSessionName && r.0.webIdentityToken == s.webIdentityToken
    ensures r.0.roleArn == s.roleArn && r.0.credentials == s.credentials
  {
    var slug := Getenv(env, ProjectSlugVar);
    var account := Getenv(env, AccountIdVar);
    var resolved := s.(
      pipelineId := Getenv(env, PipelineIdVar),
      roleName := if slug != "" then RoleNameFromSlug(slug) else s.roleName,
      awsAccount := if account != "" then account else s.awsAccount);
    match ParseDuration(Getenv(env, DurationSecondsVar))
    case NotPositive => (resolved, Fail(DurationNotPositive))
    case Unset => (resolved.(webIdentityTokenName := TokenVariableName(env)), Pass)
    case Seconds(n) => (resolved.(durationSeconds := n, webIdentityTokenName := TokenVariableName(env)), Pass)
  }

  /** Resolving twice from the same environment gives what resolving once gives. */
  lemma SetDefaultsIdempotent(env: Env, s: Settings)
    ensures SetDefaultsResult(env, SetDefaultsResult(env, s).0) == SetDefaultsResult(env, s)
  {
  }

  /** The variables SetDefaults reads have names of different lengths, hence
      different names. */
  lemma VariableNameLengths()
    ensures |PipelineIdVar| == 14 && |ProjectSlugVar| == 20 && |AccountIdVar| == 21
    ensures |DurationSecondsVar| == 27 && |TokenNameVar| == 30
  {
  }

  /** The scenario of root_test.go:14-51. With GITLAB_AWS_DURATION_SECONDS unset the
      duration keeps the zero of `&RootCommand{}`; the test's expectation of 3600
      (root_test.go:43-46) is the flag default, which only AddPersistentFlags writes. */
  lemma SetDefaultsWithDefaults()
    ensures SetDefaultsResult(map[PipelineIdVar := "12345", ProjectSlugVar := "project_slug",
                                  AccountIdVar := "aws_account_id"], ZeroSettings)
         == (ZeroSettings.(pipelineId := "12345", roleName := "gitlab-project_slug",
                           awsAccount := "aws_account_id", webIdentityTokenName := DefaultTokenVar), Pass)
  {
    var env := map[PipelineIdVar := "12345", ProjectSlugVar := "project_slug", AccountIdVar := "aws_account_id"];
    VariableNameLengths();
    assert Getenv(env, PipelineIdVar) == "12345";
    assert Getenv(env, ProjectSlugVar) == "project_slug";
    assert Getenv(env, AccountIdVar) == "aws_account_id";
    assert Getenv(env, DurationSecondsVar) == "";
    assert Getenv(env, TokenNameVar) == "";
    assert RoleNameFromSlug("project_slug") == "gitlab-project_slug";
  }

  /** The environment of root_test.go:54-93, for any pipeline id, account, duration
      and token variable name (the test's "654321", "aws_account_id", 1800 and
      "identity_token_name"). */
  function OverrideEnv(pipelineId: string, account: string, seconds: nat, tokenName: string): Env
  {
    map[PipelineIdVar := pipelineId, ProjectSlugVar := "project_slug",
        AccountIdVar := account, DurationSecondsVar := FormatNat(seconds), TokenNameVar := tokenName]
  }

  lemma OverrideEnvLookups(pipelineId: string, account: string, seconds: nat, tokenName: string)
    ensures var env := OverrideEnv(pipelineId, account, seconds, tokenName);
      && Getenv(env, PipelineIdVar) == pipelineId
      && Getenv(env, ProjectSlugVar) == "project_slug"
      && Getenv(env, AccountIdVar) == account
      && Getenv(env, DurationSecondsVar) == FormatNat(seconds)
      && Getenv(env, TokenNameVar) == tokenName
  {
    VariableNameLengths();
  }

  /** The scenario of root_test.go:54-93: the account, the duration and the token
      variable name all come from the environment. */
  lemma SetDefaultsWithEnvOverride(pipelineId: string, account: string, seconds: nat, tokenName: string)
    requires 0 < seconds <= MaxInt64 && tokenName != ""
    ensures SetDefaultsResult(OverrideEnv(pipelineId, account, seconds, tokenName), ZeroSettings)
         == (ZeroSettings.(pipelineId := pipelineId, roleName := "gitlab-project_slug",
                           awsAccount := account, durationSeconds := seconds,
                           webIdentityTokenName := tokenName), Pass)
  {
    OverrideEnvLookups(pipelineId, account, seconds, tokenName);
    assert RoleNameFromSlug("project_slug") == "gitlab-project_slug";
    ParseDurationFormatted(seconds);
  }

  // ---------------------------------------------------------------------------
  // AddPersistentFlags (root.go:34-41)

  /** SetDefaults, then flag registration, which writes each flag's default into its
      field: the role name, account and token-variable name get their own resolved
      values back, the role session name gets "" and the duration gets 3600. */
  function AddPersistentFlagsResult(env: Env, s: Settings): (r: (Settings, Outcome<ConfigError>))
    ensures r.1 == SetDefaultsResult(env, s).1
    ensures r.1.Fail? ==> r.0 == SetDefaultsResult(env, s).0
    ensures r.1.Pass? ==> r.0.durationSeconds == DefaultDurationSeconds && r.0.roleSessionName == ""
    ensures r.1.Pass? ==> r.0.(durationSeconds := s.durationSeconds, roleSessionName := s.roleSessionName)
                          == SetDefaultsResult(env, s).0.(durationSeconds := s.durationSeconds)
  {
    var (resolved, outcome) := SetDefaultsResult(env, s);
    if outcome.Fail? then (resolved, outcome)
    else (resolved.(roleSessionName := "", durationSeconds := DefaultDurationSeconds), Pass)
  }

  /** Once the flags are registered, a valid GITLAB_AWS_DURATION_SECONDS has no effect. */
  lemma FlagDefaultMasksDurationVariable(env: Env, s: Settings)
    requires ParseDuration(Getenv(env, DurationSecondsVar)).Seconds?
    ensures AddPersistentFlagsResult(env, s).1 == Pass
    ensures AddPersistentFlagsResult(env, s).0.durationSeconds == DefaultDurationSeconds
  {
  }

  // ---------------------------------------------------------------------------
  // GetSTSCredentials up to the STS call (root.go:73-96), and the call as a parameter

  /** `fmt.Sprintf("arn:aws:iam::%s:role/%s", account, role)`. */
  function FormatRoleArn(account: string, role: string): string
  {
    ArnPrefix + account + ArnRoleInfix + role
  }

  /** Reads an IAM role ARN back into its account and role name. */
  function SplitRoleArn(arn: string): Option<(string, string)>
  {
    if |arn| < |ArnPrefix| || arn[..|ArnPrefix|] != ArnPrefix then None
    else
      var rest := arn[|ArnPrefix|..];
      if ':' !in rest then None
      else
        var i := IndexOf(rest, ':');
        var tail := rest[i..];
        if |tail| < |ArnRoleInfix| || tail[..|ArnRoleInfix|] != ArnRoleInfix then None
        else Some((rest[..i], tail[|ArnRoleInfix|..]))
  }

  /** The ARN determines the account and the role name, for an account id without ':'. */
  lemma SplitFormatRoleArn(account: string, role: string)
    requires ':' !in account
    ensures SplitRoleArn(FormatRoleArn(account, role)) == Some((account, role))
  {
    var arn := FormatRoleArn(account, role);
    assert arn[..|ArnPrefix|] == ArnPrefix;
    var rest := arn[|ArnPrefix|..];
    assert rest == account + [':'] + ("role/" + role);
    IndexOfAfter(account, ':', "role/" + role);
    assert rest[..|account|] == account;
    var tail := rest[|account|..];
    assert tail == ArnRoleInfix + role;
    assert tail[..|ArnRoleInfix|] == ArnRoleInfix;
    assert tail[|ArnRoleInfix|..] == role;
  }

  /** The token check as written at root.go:86: it fails when the token IS set. */
  function TokenCheckAsWritten(variable: string, token: string): (r: Outcome<ConfigError>)
    ensures r.Fail? <==> token != ""
    ensures r.Fail? ==> r.error == TokenVariableNotSet(variable)
  {
    if token != "" then Fail(TokenVariableNotSet(variable)) else Pass
  }

  /** The check its error message describes: fail when the token is NOT set. */
  function TokenCheck(variable: string, token: string): (r: Outcome<ConfigError>)
    ensures r.Fail? <==> token == ""
    ensures r.Fail? ==> r.error == TokenVariableNotSet(variable)
  {
    if token == "" then Fail(TokenVariableNotSet(variable)) else Pass
  }

  /** The two checks disagree on every token: as written, a set token is reported
      "not set" and an unset one is let through. */
  lemma TokenCheckInverted(variable: string, token: string)
    ensures TokenCheckAsWritten(variable, token).Fail? <==> TokenCheck(variable, token).Pass?
  {
  }

  /** root.go:90-96: an explicit session name is kept; otherwise the role name,
      followed by "-" and the pipeline id when there is one. Nothing is replaced,
      trimmed or truncated. */
  function DeriveSessionName(explicit: string, roleName: string, pipelineId: string): (r: string)
    ensures explicit != "" ==> r == explicit
    ensures explicit == "" && pipelineId == "" ==> r == roleName
    ensures explicit == "" && pipelineId != "" ==>
      |r| == |roleName| + 1 + |pipelineId| && r[..|roleName|] == roleName
      && r[|roleName|] == '-' && r[|roleName| + 1..] == pipelineId
  {
    if explicit != "" then explicit
    else if pipelineId == "" then roleName
    else roleName + "-" + pipelineId
  }

  /** No sanitising happens: names with characters AWS refuses in a session name
      pass through unchanged, and a 64-rune role name with a pipeline id gives a
      session name over the 64-character AWS limit. */
  lemma SessionNameNotSanitised(role64: string)
    requires |role64| == MaxRoleNameBytes
    ensures DeriveSessionName("", "-role-", "") == "-role-"
    ensures DeriveSessionName("", "/gitlab/role", "1234") == "/gitlab/role-1234"
    ensures DeriveSessionName("", "gitlab-role--nice", "") == "gitlab-role--nice"
    ensures |DeriveSessionName("", role64, "1234")| == 69
  {
  }

  predicate ChecksPass(s: Settings)
  {
    s.roleName != "" && Utf8Length(s.roleName) <= MaxRoleNameBytes && s.awsAccount != ""
  }

  /** The new settings and outcome of GetSTSCredentials on settings `s`, with STS
      answering according to `sts`. */
  function GetSTSCredentialsResult(env: Env, s: Settings, sts: StsRequest -> StsResponse)
    : (r: (Settings, Outcome<ConfigError>))
    // the checks, in order; a failing check changes no field
    ensures s.roleName == "" ==> r == (s, Fail(RoleNameNotSet))
    ensures s.roleName != "" && Utf8Length(s.roleName) > MaxRoleNameBytes ==> r == (s, Fail(RoleNameTooLong))
    ensures s.roleName != "" && Utf8Length(s.roleName) <= MaxRoleNameBytes && s.awsAccount == "" ==>
      r == (s, Fail(AwsAccountNotSet))
    // once they pass, the ARN and the token are stored before the token check
    ensures ChecksPass(s) ==> r.0.roleArn == FormatRoleArn(s.awsAccount, s.roleName)
    ensures ChecksPass(s) ==> r.0.webIdentityToken == Getenv(env, s.webIdentityTokenName)
    ensures r.1 == Fail(TokenVariableNotSet(s.webIdentityTokenName)) <==>
      ChecksPass(s) && Getenv(env, s.webIdentityTokenName) != ""
    ensures r.1 == Fail(TokenVariableNotSet(s.webIdentityTokenName)) ==>
      r.0 == s.(roleArn := r.0.roleArn, webIdentityToken := r.0.webIdentityToken)
    // the session name is derived, and STS called, only when every check passed
    ensures r.0.roleSessionName != s.roleSessionName || r.0.credentials != s.credentials ==>
      ChecksPass(s) && Getenv(env, s.webIdentityTokenName) == ""
    ensures ChecksPass(s) && Getenv(env, s.webIdentityTokenName) == "" ==>
      r.0.roleSessionName == DeriveSessionName(s.roleSessionName, s.roleName, s.pipelineId)
    ensures r.1.Pass? <==> ChecksPass(s) && Getenv(env, s.webIdentityTokenName) == "" && sts(RequestOf(r.0)).Issued?
    ensures r.1.Pass? ==> r.0.credentials == Some(sts(RequestOf(r.0)).credentials)
    ensures ChecksPass(s) && Getenv(env, s.webIdentityTokenName) == "" && sts(RequestOf(r.0)).Refused? ==>
      r.1 == Fail(Federation(sts(RequestOf(r.0)).message)) && r.0.credentials == s.credentials
    // these fields are never written
    ensures r.0.roleName == s.roleName && r.0.awsAccount == s.awsAccount && r.0.pipelineId == s.pipelineId
    ensures r.0.durationSeconds == s.durationSeconds && r.0.webIdentityTokenName == s.webIdentityTokenName
  {
    if s.roleName == "" then (s, Fail(RoleNameNotSet))
    else if Utf8Length(s.roleName) > MaxRoleNameBytes then (s, Fail(RoleNameTooLong))
    else if s.awsAccount == "" then (s, Fail(AwsAccountNotSet))
    else
      var token := Getenv(env, s.webIdentityTokenName);
      var withToken := s.(roleArn := FormatRoleArn(s.awsAccount, s.roleName), webIdentityToken := token);
      match TokenCheckAsWritten(s.webIdentityTokenName, token)
      case Fail(e) => (withToken, Fail(e))
      case Pass =>
        var named := withToken.(roleSessionName := DeriveSessionName(s.roleSessionName, s.roleName, s.pipelineId));
        match sts(RequestOf(named))
        case Refused(m) => (named, Fail(Federation(m)))
        case Issued(c) => (named.(credentials := Some(c)), Pass)
  }

  /** As written, a run whose identity token variable is set never reaches STS,
      and every request that does reach STS carries an empty token. */
  lemma OnlyEmptyTokensReachSts(env: Env, s: Settings, sts: StsRequest -> StsResponse)
    ensures Getenv(env, s.webIdentityTokenName) != "" ==> GetSTSCredentialsResult(env, s, sts).1.Fail?
    ensures GetSTSCredentialsResult(env, s, sts).1.Pass? ==>
      RequestOf(GetSTSCredentialsResult(env, s, sts).0).webIdentityToken == ""
  {
  }

  /** With valid settings and the token set, the run ends with the message that
      the (set) variable is not set. */
  lemma SetTokenReportedNotSet(env: Env, s: Settings, sts: StsRequest -> StsResponse)
    requires ChecksPass(s) && Getenv(env, s.webIdentityTokenName) != ""
    ensures GetSTSCredentialsResult(env, s, sts).1 == Fail(TokenVariableNotSet(s.webIdentityTokenName))
    ensures Message(GetSTSCredentialsResult(env, s, sts).1.error)
         == "the environment variable " + s.webIdentityTokenName + " is not set"
  {
  }

  /** GetSTSCredentials with the token check its message describes: an unset token
      is reported, and a set one is what STS receives. Everything else is as written. */
  function GetSTSCredentialsIntended(env: Env, s: Settings, sts: StsRequest -> StsResponse)
    : (r: (Settings, Outcome<ConfigError>))
    ensures !ChecksPass(s) ==> r == GetSTSCredentialsResult(env, s, sts)
    ensures r.1 == Fail(TokenVariableNotSet(s.webIdentityTokenName)) <==>
      ChecksPass(s) && Getenv(env, s.webIdentityTokenName) == ""
    ensures r.1.Pass? <==>
      ChecksPass(s) && Getenv(env, s.webIdentityTokenName) != "" && sts(RequestOf(r.0)).Issued?
    ensures r.1.Pass? ==>
      && RequestOf(r.0) == StsRequest(FormatRoleArn(s.awsAccount, s.roleName),
                                      DeriveSessionName(s.roleSessionName, s.roleName, s.pipelineId),
                                      Getenv(env, s.webIdentityTokenName), s.durationSeconds)
      && r.0.credentials == Some(sts(RequestOf(r.0)).credentials)
  {
    if !ChecksPass(s) then GetSTSCredentialsResult(env, s, sts)
    else
      var token := Getenv(env, s.webIdentityTokenName);
      var withToken := s.(roleArn := FormatRoleArn(s.awsAccount, s.roleName), webIdentityToken := token);
      match TokenCheck(s.webIdentityTokenName, token)
      case Fail(e) => (withToken, Fail(e))
      case Pass =>
        var named := withToken.(roleSessionName := DeriveSessionName(s.roleSessionName, s.roleName, s.pipelineId));
        match sts(RequestOf(named))
        case Refused(m) => (named, Fail(Federation(m)))
        case Issued(c) => (named.(credentials := Some(c)), Pass)
  }

  /** With valid settings the code as written and the corrected code never both
      reach STS: exactly one of them stops at the token check. */
  lemma TokenChecksExcludeEachOther(env: Env, s: Settings, sts: StsRequest -> StsResponse)
    requires ChecksPass(s)
    ensures GetSTSCredentialsResult(env, s, sts).1 == Fail(TokenVariableNotSet(s.webIdentityTokenName))
        <==> GetSTSCredentialsIntended(env, s, sts).1 != Fail(TokenVariableNotSet(s.webIdentityTokenName))
  {
  }

  // ---------------------------------------------------------------------------
  // The RootCommand struct (root.go:19-31)

  class RootCommand {
    var RoleName: string
    var RoleSessionName: string
    var AwsAccount: string
    var DurationSeconds: int
    var PipelineId: string
    var WebIdentityTokenName: string
    var WebIdentityToken: string
    var RoleArn: string
    var Credentials: Option<StsCredentials>

    function Snapshot(): Settings
      reads this
    {
      Settings(RoleName, RoleSessionName, AwsAccount, DurationSeconds, PipelineId,
               WebIdentityTokenName, WebIdentityToken, RoleArn, Credentials)
    }

    /** `&RootCommand{}`: every field holds its zero value. */
    constructor ()
      ensures Snapshot() == ZeroSettings
    {
      RoleName, RoleSessionName, AwsAccount, DurationSeconds := "", "", "", 0;
      PipelineId, WebIdentityTokenName, WebIdentityToken, RoleArn := "", "", "", "";
      Credentials := None;
    }

    method SetDefaults(env: Env) returns (r: Outcome<ConfigError>)
      modifies this
      ensures (Snapshot(), r) == SetDefaultsResult(env, old(Snapshot()))
    {
      PipelineId := Getenv(env, PipelineIdVar);

      var slug := Getenv(env, ProjectSlugVar);
      if slug != "" {
        RoleName := RoleNameFromSlug(slug);
      }

      var accountId := Getenv(env, AccountIdVar);
      if accountId != "" {
        AwsAccount := accountId;
      }

      var durationSeconds := Getenv(env, DurationSecondsVar);
      if durationSeconds != "" {
        var seconds := Atoi(durationSeconds);
        if seconds.Some? && seconds.value > 0 {
          DurationSeconds := seconds.value;
        } else {
          return Fail(DurationNotPositive);
        }
      }

      WebIdentityTokenName := Getenv(env, TokenNameVar);
      if WebIdentityTokenName == "" {
        WebIdentityTokenName := DefaultTokenVar;
      }
      return Pass;
    }

    /** SetDefaults followed by the flag registrations of root.go:37-41. Flags
        given on the command line, parsed later, are not modelled. */
    method AddPersistentFlags(env: Env) returns (r: Outcome<ConfigError>)
      modifies this
      ensures (Snapshot(), r) == AddPersistentFlagsResult(env, old(Snapshot()))
    {
      r := SetDefaults(env);
      if r.Fail? {
        return;
      }
      // role-name, aws-account and web-identity-token-name are registered with
      // the values just resolved, so they write those values back unchanged
      RoleSessionName := "";
      DurationSeconds := DefaultDurationSeconds;
    }

    method GetSTSCredentials(env: Env, sts: StsRequest -> StsResponse) returns (r: Outcome<ConfigError>)
      modifies this
      ensures (Snapshot(), r) == GetSTSCredentialsResult(env, old(Snapshot()), sts)
    {
      if RoleName == "" {
        return Fail(RoleNameNotSet);
      }
      if Utf8Length(RoleName) > MaxRoleNameBytes {
        return Fail(RoleNameTooLong);
      }
      if AwsAccount == "" {
        return Fail(AwsAccountNotSet);
      }

      RoleArn := FormatRoleArn(AwsAccount, RoleName);

      WebIdentityToken := Getenv(env, WebIdentityTokenName);
      if WebIdentityToken != "" {
        return Fail(TokenVariableNotSet(WebIdentityTokenName));
      }

      if RoleSessionName == "" {
        if PipelineId == "" {
          RoleSessionName := RoleName;
        } else {
          RoleSessionName := RoleName + "-" + PipelineId;
        }
      }

      var response := sts(StsRequest(RoleArn, RoleSessionName, WebIdentityToken, DurationSeconds));
      match response
      case Refused(message) =>
        return Fail(Federation(message));
      case Issued(credentials) =>
        Credentials := Some(credentials);
        return Pass;
    }
  }
}

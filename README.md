# gitlab-aws-credential-helper, modelled in Dafny

The GitLab AWS credential helper runs inside a GitLab CI job. It exchanges the
job's OpenID Connect id token for temporary AWS credentials, using STS
AssumeRoleWithWebIdentity. It then hands the credentials on in one of these ways:

- as environment variables of a command it executes (`env`);
- as shell assignments written to standard output or a file (`env`);
- as a dotenv artifact (`dotenv`);
- as a profile of the AWS shared credentials file (`aws-profile`).

This project models the decisions the helper makes on the way:

- how the role name, account, duration and token variable are taken from the CI
  environment (`SetDefaults`), and how flag registration overwrites them;
- the validation order of `GetSTSCredentials`, the role ARN, the session name it
  derives, and what reaches STS;
- how the environment of the executed command is built from the job's environment;
- the exact lines the `env` and `dotenv` commands write, and when they fail;
- the profile section upsert in the shared credentials file.

Modules follow the source files:

| module | file | what it holds |
|---|---|---|
| `Config` | `root.go` | `RootCommand` as a class whose methods update its fields, plus one pure function per method that its `ensures` refers to |
| `Exec` | `env/exec.go` | the environment merge: a method with loops, proved against a filter function |
| `EnvCommand` | `env/cmd.go` | `PreRunE`, the `RunE` dispatch; `WriteDotEnv` as a method writing to a `Stream` |
| `DotEnv` | `dotenv/cmd.go` | filename default, `PreRunE`; `WriteDotEnv` |
| `AwsProfile` | `awsprofile/cmd.go` | profile and path defaults, `PreRunE`; the section update on an `IniFile` class |

Five supporting modules model the Go library behaviour the code relies on:

- `Wrappers`: the `Option` and `Outcome` types.
- `Environ`: `os.Getenv` over a map, where a missing variable reads as "".
- `Text`: UTF-8 byte length (Go's `len`) and rune truncation (`%.57s`).
- `Strconv`: `strconv.Atoi` with its 64-bit range.
- `Output`: a stream that records what is written and may refuse writes.

External effects are parameters:

- The environment is an `Env` map, or a `seq<string>` for `os.Environ()`.
- STS is a function from the request to the response.
- An opened file is an `OpenResult`.
- Go's unspecified map iteration order is an `order` sequence.

`log.Fatalf` is an error outcome. A string is a sequence of Unicode code points, i.e. Go runes.

Four behaviours of the code are easy to misread, and the model follows the code in each:

- The session name is not sanitised or truncated. It is the role name, or the role
  name, "-" and the pipeline id, character for character.
- A non-positive or non-numeric `GITLAB_AWS_DURATION_SECONDS` ends the run (`log.Fatalf`).
  `root_test.go:96-104` expects a silent fallback to 3600 instead.
- With `GITLAB_AWS_DURATION_SECONDS` unset, `SetDefaults` leaves the duration at 0 on a
  fresh `RootCommand`. `root_test.go:43-46` expects 3600, which only the flag default
  written by `AddPersistentFlags` supplies.
- The identity token check at `root.go:86` is inverted (see Findings).
  `Config.RootCommand` keeps the code's check.

## Model

| member | source | states |
|---|---|---|
| Config.RootCommand.SetDefaults | pkg/cmd/root.go:48-70 | the fields after the call and the outcome are exactly `SetDefaultsResult` of the environment and the fields before |
| Config.SetDefaultsResult | pkg/cmd/root.go:48-70 | PipelineId always becomes CI_PIPELINE_ID ("" if unset); RoleName becomes "gitlab-" plus the slug truncated to 57 runes when the slug is set, else it is kept; AwsAccount is replaced only by a non-empty GITLAB_AWS_ACCOUNT_ID; the duration is kept when unset, set when it parses positive, otherwise the run fails; the token variable name is the override or GITLAB_AWS_IDENTITY_TOKEN; the session name, token, ARN and credentials are untouched |
| Config.SetDefaultsIdempotent | pkg/cmd/root.go:48-70 | applying SetDefaults twice in the same environment gives what applying it once gives |
| Config.SetDefaultsWithDefaults | pkg/cmd/root_test.go:14-51 | the first test's environment yields role "gitlab-project_slug", its account, pipeline id and the default token variable; the duration stays 0, where root_test.go:43-46 expects 3600 |
| Config.SetDefaultsWithEnvOverride | pkg/cmd/root_test.go:54-93 | the second test's environment, for any pipeline id, account, positive 64-bit duration and non-empty token variable name, yields each of them and role gitlab-project_slug |
| Config.RoleNameFromSlug | pkg/cmd/root.go:51-53 | the role name is the prefix and the slug, cut to 57 runes, so at most 64 runes |
| Config.AsciiSlugRoleNameFits | pkg/cmd/root.go:52 | for an ASCII slug the derived role name is at most 64 bytes, so it passes the length check |
| Config.ParseDuration | pkg/cmd/root.go:59-65 | unset iff the variable is empty; accepted iff `Atoi` succeeds with a value above 0, which is the value taken; every other value is the fatal case |
| Config.ParseDurationFormatted | pkg/cmd/root.go:59-61 | every positive 64-bit count of seconds written in decimal is accepted as itself |
| Config.ParseDurationRejects | pkg/cmd/root_test.go:96-104 | "invalid_duration", "0", "-1800" and "18 00" all take the fatal branch |
| Config.TokenVariableName | pkg/cmd/root.go:67-69 | non-empty; the override when it is set, else GITLAB_AWS_IDENTITY_TOKEN |
| Config.RootCommand.AddPersistentFlags | pkg/cmd/root.go:34-41 | the fields and outcome are exactly `AddPersistentFlagsResult` |
| Config.AddPersistentFlagsResult | pkg/cmd/root.go:34-41 | SetDefaults runs first; then flag registration writes 3600 into DurationSeconds and "" into RoleSessionName and leaves the other fields at SetDefaults' values |
| Config.FlagDefaultMasksDurationVariable | pkg/cmd/root.go:40 | after flag registration a valid GITLAB_AWS_DURATION_SECONDS has no effect: the duration is 3600 |
| Config.RootCommand.GetSTSCredentials | pkg/cmd/root.go:73-96 | the fields and outcome are exactly `GetSTSCredentialsResult`, with STS as a parameter |
| Config.GetSTSCredentialsResult | pkg/cmd/root.go:73-126 | the checks run in order (empty role name, role name over 64 bytes, empty account), each with its own error and no field changed; after them the ARN and the token are stored; as written the token error occurs iff the token is set; the session name is derived and STS is called only past every check; success iff STS issues credentials, which are stored; a refusal is reported with its message |
| Config.OnlyEmptyTokensReachSts | pkg/cmd/root.go:86-88 | as written, a set identity token always fails the run, and any request that succeeds carried an empty token |
| Config.SetTokenReportedNotSet | pkg/cmd/root.go:86-88 | with valid settings and the token set, the run ends with "the environment variable X is not set" |
| Config.TokenCheckAsWritten | pkg/cmd/root.go:86-88 | fails iff the token is non-empty, with the error naming the variable |
| Config.TokenCheck | pkg/cmd/root.go:86-88 | fails iff the token is empty, with the error naming the variable |
| Config.TokenCheckInverted | pkg/cmd/root.go:86-88 | the check as written fails exactly when the intended check passes |
| Config.GetSTSCredentialsIntended | pkg/cmd/root.go:73-126 | with the corrected check: an empty token is reported; success iff the token is set and STS issues credentials; the request then carries the ARN, the derived session name, the token and the duration |
| Config.TokenChecksExcludeEachOther | pkg/cmd/root.go:86-88 | with valid settings, exactly one of the code as written and the corrected code stops at the token check |
| Config.FormatRoleArn | pkg/cmd/root.go:84 | `arn:aws:iam::ACCOUNT:role/ROLE`; `SplitFormatRoleArn` reads it back |
| Config.SplitFormatRoleArn | pkg/cmd/root.go:84 | the ARN `arn:aws:iam::ACCOUNT:role/ROLE` reads back as the account and role it was built from |
| Config.DeriveSessionName | pkg/cmd/root.go:90-96 | an explicit session name is kept; otherwise the role name when the pipeline id is empty, else role name, "-" and pipeline id |
| Config.SessionNameNotSanitised | pkg/cmd/root.go:90-96 | names with '/' or a leading '-' pass through unchanged, and a 64-rune role name with a pipeline id gives a 69-rune session name |
| Config.Message | pkg/cmd/root.go:63-87 | the text of each error the code raises: the duration error of line 63, the role name, length and account errors of lines 75-81, and the token error of line 87 with the variable's name; `ValidationMessagesDistinct` and `TokenMessageNamesVariable` state what tells them apart |
| Config.ValidationMessagesDistinct | pkg/cmd/root.go:74-88 | the four validation errors have pairwise different messages |
| Config.TokenMessageNamesVariable | pkg/cmd/root.go:87 | the token error message determines the variable it names |
| Exec.SplitEnvironmentVariable | pkg/cmd/env/exec.go:29-32 | for an entry containing '=', the name holds no '=' and name, "=" and value give back the entry |
| Exec.SplitJoin | pkg/cmd/env/exec.go:29-32 | splitting name=value, for a name without '=', gives back the name and the value, whatever '=' the value holds |
| Exec.NewEnvironmentWithCredentials | pkg/cmd/env/exec.go:36-61 | the result is the kept entries (those not named after a credential variable) in their order, followed by the three credential entries |
| Exec.KeptEntries | pkg/cmd/env/exec.go:44-49 | the loop's filter, entry by entry: an entry stays iff its name is not a credential variable; the `KeptEntries` lemmas state membership, order and length |
| Exec.KeptEntriesMembership | pkg/cmd/env/exec.go:44-49 | an entry is kept iff it is in the input and its name is not a credential variable |
| Exec.KeptEntriesLength | pkg/cmd/env/exec.go:37 | filtering never lengthens the environment |
| Exec.KeptEntriesIdentity | pkg/cmd/env/exec.go:44-49 | an environment without credential variables is kept whole |
| Exec.KeptEntriesConcat | pkg/cmd/env/exec.go:44-49 | filtering distributes over concatenation, so relative order is kept |
| Exec.CountNamedConcat | pkg/cmd/env/exec.go:44-58 | the count of entries with a name is additive over concatenation |
| Exec.CountNamedAbsent | pkg/cmd/env/exec.go:44-49 | an environment with no entry of a name counts zero of it |
| Exec.CredentialMap | pkg/cmd/env/exec.go:38-42 | the `credentialValues` map from the three credential names to the credential fields; `CredentialMapKeys` and `CredentialMapLookup` state its keys and values |
| Exec.CredentialMapKeys | pkg/cmd/env/exec.go:38-42 | the `credentialValues` map has exactly the three credential names as keys |
| Exec.CredentialMapLookup | pkg/cmd/env/exec.go:52 | looking up the i-th credential name gives the i-th credential value |
| Exec.CredentialEntry | pkg/cmd/env/exec.go:53-57 | `NAME=value`, or `NAME=` for nil |
| Exec.CredentialEntries | pkg/cmd/env/exec.go:51-58 | the three entries in the order of the name list; `CredentialEntriesAt` and `CredentialEntryNames` state them |
| Exec.CredentialEntriesAt | pkg/cmd/env/exec.go:51-58 | the i-th appended entry is the i-th name with "=" and its value, or "NAME=" for nil |
| Exec.CredentialEntryNames | pkg/cmd/env/exec.go:51-58 | the three appended entries are named AWS_ACCESS_KEY_ID, AWS_SECRET_ACCESS_KEY and AWS_SESSION_TOKEN, in that order |
| Exec.KeptEntriesClean | pkg/cmd/env/exec.go:44-49 | no kept entry is named after a credential variable |
| Exec.CredentialEntriesCount | pkg/cmd/env/exec.go:51-58 | each credential name occurs exactly once among the appended entries |
| Exec.MergedEnvironment | pkg/cmd/env/exec.go:44-58 | each credential name occurs exactly once in the result, whatever entries for it (duplicates included) the input held |
| Exec.MergedEnvironmentLength | pkg/cmd/env/exec.go:37-58 | the result has the kept entries plus 3, so at most len(env)+3 entries |
| Exec.ExecTestSimple | pkg/cmd/env/exec_test.go:21-24 | the first test vector, for any two entries not named after a credential variable and any new values: both are kept, in order, before the three new entries |
| Exec.ExecTestReplace | pkg/cmd/env/exec_test.go:25-28 | the second test vector: a stale AWS_ACCESS_KEY_ID is dropped |
| Exec.ExecTestOverrideAll | pkg/cmd/env/exec_test.go:29-31 | the third test vector: all three old credential entries are replaced |
| EnvCommand.PreRun | pkg/cmd/env/cmd.go:74-79 | fails iff an output file is given and there are command arguments |
| EnvCommand.Run | pkg/cmd/env/cmd.go:81-87 | executes the arguments iff there are any, else writes the credentials with the given filename and export flag |
| EnvCommand.PreRunKeepsFilename | pkg/cmd/env/cmd.go:74-87 | once PreRunE passes, a given output file is always written, never replaced by running a command |
| EnvCommand.ParseDotEnvLine | pkg/cmd/env/cmd.go:108-117 | each written line reads back as its export flag, variable and value; nil reads back as "" |
| EnvCommand.UnprefixedAssignment | pkg/cmd/env/cmd.go:114-117 | a line without "export " cannot be mistaken for one with it |
| EnvCommand.DotEnvLine | pkg/cmd/env/cmd.go:109-117 | one line: "export " iff export is set, the variable, "=", the value unquoted ("" for nil) and a newline; `ParseDotEnvLine` reads it back |
| EnvCommand.DotEnvLines | pkg/cmd/env/cmd.go:124-126 | the three lines in the order of the calls; `DotEnvContent` states their contents |
| EnvCommand.DotEnvContent | pkg/cmd/env/cmd.go:124-126 | the content is three lines, AWS_ACCESS_KEY_ID, AWS_SECRET_ACCESS_KEY and AWS_SESSION_TOKEN in that order, each unquoted with the prefix iff export is set |
| EnvCommand.WriteEnvVars | pkg/cmd/env/cmd.go:118-126 | the three lines are written in turn and the first refused write stops the run: success iff all three are accepted, and the stream gains exactly the lines accepted before the first refusal |
| EnvCommand.WriteDotEnv | pkg/cmd/env/cmd.go:92-129 | standard output when no filename is given; a failed open is returned; the named file is truncated; each write has its own outcome, and the first refused one ends the run fatally after the lines accepted before it (`StopsAt`); with all three accepted the run succeeds and the target holds the three lines after what standard output held, or only them in the file |
| DotEnv.FilenameDefault | pkg/cmd/dotenv/cmd.go:48-50 | GITLAB_AWS_DOTENV_FILE when it is set, else ".gitlab-aws-credentials.env"; never empty |
| DotEnv.PreRun | pkg/cmd/dotenv/cmd.go:57-62 | fails iff the filename is empty |
| DotEnv.DefaultFilenamePasses | pkg/cmd/dotenv/cmd.go:48-62 | the default filename always passes PreRunE |
| DotEnv.ParseDotEnvLine | pkg/cmd/dotenv/cmd.go:79-86 | each line `KEY="value"` reads back as its key and value, whatever quotes the value holds; nil reads back as "" |
| DotEnv.DotEnvLine | pkg/cmd/dotenv/cmd.go:79-84 | one line: the variable, `="`, the value ("" for nil), `"` and a newline; `ParseDotEnvLine` reads it back |
| DotEnv.DotEnvLines | pkg/cmd/dotenv/cmd.go:88-90 | the three lines in the order of the calls; `DotEnvContent` states their contents |
| DotEnv.DotEnvContent | pkg/cmd/dotenv/cmd.go:88-90 | the file is three quoted lines for the three credential variables, in that order |
| DotEnv.WriteEnvVars | pkg/cmd/dotenv/cmd.go:85-90 | all three lines are attempted whatever each write returns, and the stream gains exactly the accepted ones, in order |
| DotEnv.WriteDotEnv | pkg/cmd/dotenv/cmd.go:67-93 | success iff the file opened, whatever the writes return; all three writes are attempted and the file holds exactly the lines whose write went through, in order (`AcceptedLines`); a failed open is returned with its message |
| AwsProfile.ProfileDefault | pkg/cmd/awsprofile/cmd.go:70-72 | GITLAB_AWS_PROFILE when it is set, else "default"; never empty |
| AwsProfile.PreRun | pkg/cmd/awsprofile/cmd.go:79-84 | fails iff the profile name is empty |
| AwsProfile.CredentialsPath | pkg/cmd/awsprofile/cmd.go:90-93 | AWS_SHARED_CREDENTIALS_FILE when it is set, else $HOME followed by /.aws/credentials |
| AwsProfile.ProfileValues | pkg/cmd/awsprofile/cmd.go:106-111 | the four keys map to the access key id, secret, session token and expiration; no map exists, because the literal panics, iff a credential is nil |
| AwsProfile.WithSection | pkg/cmd/awsprofile/cmd.go:98-105 | the profile's section exists afterwards; an existing section is kept, a missing one is created empty, others are unchanged |
| AwsProfile.Upsert | pkg/cmd/awsprofile/cmd.go:98-121 | the profile section exists and maps each of the given keys to its value; its other keys and every other section are unchanged |
| AwsProfile.UpsertIdempotent | pkg/cmd/awsprofile/cmd.go:98-121 | writing the same credentials twice leaves the file as one write does |
| AwsProfile.SetInOrderMerges | pkg/cmd/awsprofile/cmd.go:112-121 | setting keys one at a time, in any order and even with repeats, equals merging the keys set |
| AwsProfile.OrderIndependent | pkg/cmd/awsprofile/cmd.go:106-112 | two iteration orders over the same keys give the same section |
| AwsProfile.ProfileValuesKeys | pkg/cmd/awsprofile/cmd.go:106-111 | the `values` map's keys are exactly the four profile keys |
| AwsProfile.UpsertInOrder | pkg/cmd/awsprofile/cmd.go:112-121 | the loop over any iteration order of the four keys performs the upsert |
| AwsProfile.IniFile.NewSection | pkg/cmd/awsprofile/cmd.go:102 | the file gains an empty section of that name; every other section is unchanged |
| AwsProfile.IniFile.SetValue | pkg/cmd/awsprofile/cmd.go:114 | the key of the section takes the value; the rest of that section and every other section are unchanged |
| AwsProfile.IniFile.NewKey | pkg/cmd/awsprofile/cmd.go:116 | the section gains the key with the value; the rest of that section and every other section are unchanged |
| AwsProfile.SetValues | pkg/cmd/awsprofile/cmd.go:112-121 | the profile section becomes the keys of the order set one after another to their values, by SetValue or NewKey; other sections are unchanged |
| AwsProfile.WriteToSharedConfig | pkg/cmd/awsprofile/cmd.go:98-121 | whatever the order map iteration visits the keys in, the file's sections become the upsert of the credentials into the profile; with a nil credential the section is created and the run ends in a panic |
| Output.Stream.Truncate | pkg/cmd/env/cmd.go:97 | opening with `O_TRUNC` leaves the file empty; the write outcomes still to come are kept |
| Output.Stream.WriteString | pkg/cmd/env/cmd.go:118 | each call consumes the next write outcome: accepted, the line is appended; refused, nothing is written and the error is returned |
| Output.StopsAt | pkg/cmd/env/cmd.go:118-121 | the number of writes accepted before the first refused one, at most n: all before it are accepted and the one at it is refused |
| Output.AcceptedLines | pkg/cmd/dotenv/cmd.go:85-90 | the lines whose write was accepted: no more lines than given and only given ones, all of them when every write is accepted and none when every write is refused; the order is stated by `AcceptedLinesConcat` and `AcceptedLine` |
| Output.AcceptedLinesConcat | pkg/cmd/dotenv/cmd.go:88-90 | the lines of a concatenation are those of the first part followed by those of the second, each with its own write outcomes, so the kept lines keep the order of the writes |
| Output.AcceptedLine | pkg/cmd/dotenv/cmd.go:85 | one line is kept iff its write is accepted |
| Text.Utf8LengthConcat | pkg/cmd/root.go:77 | the byte length of a concatenation is the sum of the byte lengths |
| Text.Utf8LengthAtLeastRunes | pkg/cmd/root.go:77 | a string has at least as many bytes as runes |
| Text.AsciiUtf8Length | pkg/cmd/root.go:77 | an ASCII string has as many bytes as runes |
| Text.TruncateRunes | pkg/cmd/root.go:52 | `%.57s` keeps a prefix of at most 57 runes, all of them when the string is shorter |
| Text.IndexOf | pkg/cmd/env/exec.go:30 | the first occurrence: the character is there and not before it |
| Text.IndexOfAfter | pkg/cmd/env/exec.go:30 | the first '=' after a name without '=' sits right after the name |
| Strconv.Atoi | pkg/cmd/root.go:60 | a result is within the 64-bit range and comes from an optionally signed, non-empty run of digits; a positive result is their decimal value |
| Strconv.FormatNat | pkg/cmd/root.go:60 | decimal digits without a leading zero whose value is the number |
| Strconv.AtoiFormatNat | pkg/cmd/root.go:60 | `Atoi` reads back every 64-bit non-negative number's decimal form |
| Strconv.AtoiRejectsNonDigit | pkg/cmd/root.go:60 | a string with a character that is neither a digit nor a leading sign is rejected |

## Left out

- STS: session creation, the region, the static empty credentials and the network call (pkg/cmd/root.go:98-126) are a function parameter from the request to the response; SDK errors other than a refusal are not distinguished.
- Command-line parsing (cobra and pflag) and help text are not modelled; the only pflag behaviour kept is that registering a flag writes its default into the bound field (pkg/cmd/root.go:37-41). The dotenv and aws-profile flags overwrite their fields with the already computed defaults, so they change nothing.
- main.go registers aws-profile, dotenv and process but not env; command registration is not modelled.
- ExecProcess (pkg/cmd/env/exec.go:15-27): PATH lookup and process replacement are operating system effects and are not modelled; only the environment it passes is.
- File system effects: `Close` failures (logged only), the directory creation, `Stat`, and opening and writing the credentials file (pkg/cmd/awsprofile/cmd.go:122-141) are not modelled; a successful open is a `Stream`, a failed one its error.
- ini parsing and serialisation (`ini.LooseLoad`, `cfg.WriteTo`), the library's DEFAULT section, its treatment of an empty section name and the logged-only `NewKey` error are not modelled; the file is a map from section name to a map from key to value.
- AwsProfile.WriteToSharedConfig: requires a non-empty profile name, which PreRunE guarantees before RunE runs, because how the ini library treats an empty section name is not part of the model.
- Exec.NewEnvironmentWithCredentials: requires every entry to contain '=', which a normal process environment satisfies; an entry without '=' makes pkg/cmd/env/exec.go:31 panic.
- RFC 3339 formatting of the expiration time (pkg/cmd/awsprofile/cmd.go:110) is an opaque string already formatted.
- pkg/cmd/process/cmd.go (JSON output for the AWS credential-process protocol) is not part of this model.
- `log.Fatalf` is an error outcome rather than a process exit; a nil pointer dereference is an error outcome rather than a panic.
- Strings are sequences of code points; environment values that are not valid UTF-8 are not modelled.
- Concurrency: none in the core.

## Findings

| source | as written | input that shows it | evidently intended | confidence | as-written member | corrected member |
|---|---|---|---|---|---|---|
| pkg/cmd/root.go:86 | `if c.WebIdentityToken = os.Getenv(c.WebIdentityTokenName); c.WebIdentityToken != ""` returns "the environment variable X is not set" | valid role and account with GITLAB_AWS_IDENTITY_TOKEN set: the run fails saying the variable is not set; with it unset, STS receives an empty token | fail when the token is empty, send a set token to STS | not executed | Config.TokenCheckAsWritten (witnesses: Config.SetTokenReportedNotSet, Config.OnlyEmptyTokensReachSts) | Config.TokenCheck, used by Config.GetSTSCredentialsIntended |

`Config.RootCommand.GetSTSCredentials` models the program as written. The corrected
behaviour is `Config.GetSTSCredentialsIntended`, which is proved to send the set token to STS.

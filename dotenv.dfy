/** pkg/cmd/dotenv/cmd.go: the `dotenv` command, which stores the credentials in a
    dotenv file that later jobs of the pipeline read as an artifact. */
module DotEnv {
  import opened Wrappers
  import opened Environ
  import opened Output
  import Exec

  const FilenameVar := "GITLAB_AWS_DOTENV_FILE"
  const DefaultFilename := ".gitlab-aws-credentials.env"

  /** The default of --filename: the variable if it is set and non-empty, else the
      fixed name. */
  function FilenameDefault(env: Env): (filename: string)
    ensures filename != ""
    ensures filename == DefaultFilename <==> Getenv(env, FilenameVar) in {"", DefaultFilename}
    ensures Getenv(env, FilenameVar) != "" ==> filename == Getenv(env, FilenameVar)
  {
    var value := Getenv(env, FilenameVar);
    if value == "" then DefaultFilename else value
  }

  /** PreRunE: refuses an empty filename, which only an explicit `--filename ""` gives. */
  function PreRun(filename: string): (r: Outcome<string>)
    ensures r.Fail? <==> filename == ""
  {
    if filename == "" then Fail("no --filename was specified or GITLAB_AWS_DOTENV_FILE was empty.")
    else Pass
  }

  /** With the default filename PreRunE always passes. */
  lemma DefaultFilenamePasses(env: Env)
    ensures PreRun(FilenameDefault(env)).Pass?
  {
  }

  /** One line: `fmt.Sprintf("%s=\"%s\"\n", key, *value)`, a nil value written as "".
      The value is put between double quotes as is, without escaping. */
  function DotEnvLine(key: string, value: Option<string>): string
  {
    key + "=\"" + ValueOrEmpty(value) + "\"\n"
  }

  /** The three lines WriteDotEnv writes, in the order it writes them. */
  function DotEnvLines(c: StsCredentials): seq<string>
  {
    [DotEnvLine(Exec.AccessKeyIdVar, c.accessKeyId),
     DotEnvLine(Exec.SecretAccessKeyVar, c.secretAccessKey),
     DotEnvLine(Exec.SessionTokenVar, c.sessionToken)]
  }

  /** Reads a line back: the variable and the value between the quotes. */
  function ParseLine(line: string): Option<(string, string)>
  {
    if |line| < 2 || line[|line| - 2..] != "\"\n" then None
    else
      var body := line[..|line| - 2];
      if '=' !in body then None
      else
        var (key, quoted) := Exec.SplitEnvironmentVariable(body);
        if |quoted| == 0 || quoted[0] != '"' then None
        else Some((key, quoted[1..]))
  }

  /** Every line reads back as the variable and value it was written from, for any
      value, including one holding quotes or newlines, since only the last two
      characters close the line. */
  lemma ParseDotEnvLine(key: string, value: Option<string>)
    requires '=' !in key
    ensures ParseLine(DotEnvLine(key, value)) == Some((key, ValueOrEmpty(value)))
  {
    var v := ValueOrEmpty(value);
    var line := DotEnvLine(key, value);
    var quoted := "\"" + v;
    assert line == key + "=" + quoted + "\"\n";
    assert line[..|line| - 2] == key + "=" + quoted;
    Exec.SplitJoin(key, quoted);
  }

  /** The file holds one quoted assignment per credential variable, in exec.go's order. */
  lemma DotEnvContent(c: StsCredentials)
    ensures |DotEnvLines(c)| == 3
    ensures forall i | 0 <= i < 3 ::
      ParseLine(DotEnvLines(c)[i]) == Some((Exec.CredentialNames[i], ValueOrEmpty(Exec.CredentialValues(c)[i])))
  {
    forall i | 0 <= i < 3
      ensures ParseLine(DotEnvLines(c)[i]) == Some((Exec.CredentialNames[i], ValueOrEmpty(Exec.CredentialValues(c)[i])))
    {
      var name := Exec.CredentialNames[i];
      var value := Exec.CredentialValues(c)[i];
      assert DotEnvLines(c)[i] == DotEnvLine(name, value);
      assert '=' !in name;
      ParseDotEnvLine(name, value);
    }
  }

  /** The three `writeEnvVar` calls: every line is written and each write's error is
      dropped, so the stream gains the lines whose write went through. */
  method WriteEnvVars(file: Stream, lines: seq<string>)
    requires |lines| == 3
    modifies file
    ensures file.written == old(file.written) + AcceptedLines(lines, file.outcomes, old(file.attempts))
    ensures file.attempts == old(file.attempts) + 3
  {
    ghost var start := file.attempts;
    ghost var before := file.written;
    var _ := file.WriteString(lines[0]);
    var _ := file.WriteString(lines[1]);
    var _ := file.WriteString(lines[2]);
    assert lines[1..][1..][1..] == [];
    assert AcceptedLines(lines[1..][1..], file.outcomes, start + 2)
        == (if Accepts(file.outcomes, start + 2) then [lines[2]] else []);
  }

  /** WriteDotEnv: opens and truncates the file, writes the three lines and reports
      success whatever the writes return, so the file holds the lines whose write went
      through; only a failed open is an error. `open` is what opening the file gives. */
  method WriteDotEnv(credentials: StsCredentials, open: OpenResult) returns (r: Outcome<string>)
    modifies if open.Opened? then {open.stream} else {}
    ensures r.Pass? <==> open.Opened?
    ensures open.OpenFailed? ==> r == Fail(open.message)
    ensures open.Opened? ==>
      && open.stream.written == AcceptedLines(DotEnvLines(credentials), open.stream.outcomes, old(open.stream.attempts))
      && open.stream.attempts == old(open.stream.attempts) + 3
  {
    match open
    case OpenFailed(message) =>
      return Fail(message);
    case Opened(file) =>
      file.Truncate();
      WriteEnvVars(file, DotEnvLines(credentials));
      return Pass;
  }
}

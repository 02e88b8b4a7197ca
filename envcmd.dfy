/** pkg/cmd/env/cmd.go: the `env` command. Without arguments it writes the
    credentials as shell variable assignments to standard output or a file; with
    arguments it executes them as a command with the credentials in its environment. */
module EnvCommand {
  import opened Wrappers
  import opened Environ
  import opened Output
  import Exec

  const ExportPrefix := "export "

  /** PreRunE: an output file and a command to execute exclude each other. */
  function PreRun(filename: string, args: seq<string>): (r: Outcome<string>)
    ensures r.Fail? <==> filename != "" && |args| > 0
  {
    if filename != "" && |args| > 0 then Fail("either specify an output file or a command to execute")
    else Pass
  }

  /** What RunE does. */
  datatype Action = RunCommand(command: seq<string>) | WriteCredentials(filename: string, exported: bool)

  function Run(args: seq<string>, filename: string, exported: bool): (a: Action)
    ensures a.RunCommand? <==> |args| > 0
    ensures a.RunCommand? ==> a.command == args
    ensures a.WriteCredentials? ==> a.filename == filename && a.exported == exported
  {
    if |args| > 0 then RunCommand(args) else WriteCredentials(filename, exported)
  }

  /** Once PreRunE has passed, a given output file is always written: RunE never
      runs a command in its place. */
  lemma PreRunKeepsFilename(args: seq<string>, filename: string, exported: bool)
    requires PreRun(filename, args).Pass?
    ensures filename != "" ==> Run(args, filename, exported) == WriteCredentials(filename, exported)
    ensures Run(args, filename, exported).RunCommand? ==> filename == ""
  {
  }

  /** One line of output: `fmt.Sprintf("%s%s=%s\n", prefix, key, *value)`; a nil value
      is written as the empty string and nothing is quoted. */
  function DotEnvLine(exported: bool, key: string, value: Option<string>): string
  {
    (if exported then ExportPrefix else "") + key + "=" + ValueOrEmpty(value) + "\n"
  }

  /** The three lines WriteDotEnv writes, in the order it writes them. */
  function DotEnvLines(exported: bool, c: StsCredentials): seq<string>
  {
    [DotEnvLine(exported, Exec.AccessKeyIdVar, c.accessKeyId),
     DotEnvLine(exported, Exec.SecretAccessKeyVar, c.secretAccessKey),
     DotEnvLine(exported, Exec.SessionTokenVar, c.sessionToken)]
  }

  /** A name a reader of the line can tell apart from the prefix and the value. */
  predicate IsVariableName(key: string)
  {
    ' ' !in key && '=' !in key
  }

  /** Reads a line back: whether it is exported, the variable and the value. */
  function ParseLine(line: string): Option<(bool, string, string)>
  {
    if |line| == 0 || line[|line| - 1] != '\n' then None
    else
      var body := line[..|line| - 1];
      var exported := |body| >= |ExportPrefix| && body[..|ExportPrefix|] == ExportPrefix;
      var assignment := if exported then body[|ExportPrefix|..] else body;
      if '=' !in assignment then None
      else
        var (key, value) := Exec.SplitEnvironmentVariable(assignment);
        Some((exported, key, value))
  }

  /** Every line reads back as the flag, variable and value it was written from. */
  lemma ParseDotEnvLine(exported: bool, key: string, value: Option<string>)
    requires IsVariableName(key)
    ensures ParseLine(DotEnvLine(exported, key, value)) == Some((exported, key, ValueOrEmpty(value)))
  {
    var v := ValueOrEmpty(value);
    var line := DotEnvLine(exported, key, value);
    var assignment := key + "=" + v;
    Exec.SplitJoin(key, v);
    if exported {
      assert line == ExportPrefix + assignment + "\n";
      assert line[..|line| - 1][|ExportPrefix|..] == assignment;
    } else {
      assert line == assignment + "\n";
      var body := line[..|line| - 1];
      assert body == assignment;
      UnprefixedAssignment(key, v);
    }
  }

  /** An assignment to a variable name never starts with the export prefix. */
  lemma UnprefixedAssignment(key: string, value: string)
    requires IsVariableName(key)
    ensures var body := key + "=" + value;
      !(|body| >= |ExportPrefix| && body[..|ExportPrefix|] == ExportPrefix)
  {
    var body := key + "=" + value;
    if |key| < |ExportPrefix| {
      assert body[|key|] == '=';
    } else {
      assert body[6] == key[6];
    }
  }

  /** The content is exactly three lines, one per credential variable, in the order
      of exec.go; each holds the issued value (empty for nil) and `exported` marks all
      or none of them. */
  lemma DotEnvContent(exported: bool, c: StsCredentials)
    ensures |DotEnvLines(exported, c)| == 3
    ensures forall i | 0 <= i < 3 ::
      ParseLine(DotEnvLines(exported, c)[i])
        == Some((exported, Exec.CredentialNames[i], ValueOrEmpty(Exec.CredentialValues(c)[i])))
  {
    forall i | 0 <= i < 3
      ensures ParseLine(DotEnvLines(exported, c)[i])
        == Some((exported, Exec.CredentialNames[i], ValueOrEmpty(Exec.CredentialValues(c)[i])))
    {
      var name := Exec.CredentialNames[i];
      var value := Exec.CredentialValues(c)[i];
      assert DotEnvLines(exported, c)[i] == DotEnvLine(exported, name, value);
      assert IsVariableName(name);
      ParseDotEnvLine(exported, name, value);
    }
  }

  datatype WriteError =
    | OpenError(message: string)   // os.OpenFile failed
    | WriteFailed                  // log.Fatalf after a failed write

  /** The stream WriteDotEnv writes to, if it gets one. */
  function Target(filename: string, stdout: Stream, open: OpenResult): Option<Stream>
  {
    if filename == "" then Some(stdout)
    else if open.Opened? then Some(open.stream)
    else None
  }

  /** The three `writeEnvVar` calls: each line is written in turn and the first refused
      write ends the run, so the stream keeps the lines written before it. */
  method WriteEnvVars(file: Stream, lines: seq<string>) returns (ok: bool)
    requires |lines| == 3
    modifies file
    ensures var written := StopsAt(file.outcomes, old(file.attempts), 3);
      && (ok <==> written == 3)
      && file.written == old(file.written) + lines[..written]
      && file.attempts == old(file.attempts) + (if written == 3 then 3 else written + 1)
  {
    ok := file.WriteString(lines[0]);
    if !ok {
      return;
    }
    ok := file.WriteString(lines[1]);
    if !ok {
      return;
    }
    ok := file.WriteString(lines[2]);
    assert lines[..3] == [lines[0], lines[1], lines[2]];
  }

  /** WriteDotEnv: standard output gets the lines appended; a named file is opened,
      truncated and gets only the lines. `open` is what opening `filename` gives and is
      consulted only when a filename is set. The first refused write ends the run, so
      the target keeps the lines written before it. */
  method WriteDotEnv(filename: string, exported: bool, credentials: StsCredentials,
                     stdout: Stream, open: OpenResult) returns (r: Outcome<WriteError>)
    modifies stdout, if open.Opened? then {open.stream} else {}
    ensures filename != "" && open.OpenFailed? ==> r == Fail(OpenError(open.message)) && unchanged(stdout)
    ensures var target := Target(filename, stdout, open);
      target.Some? ==>
        var written := StopsAt(target.value.outcomes, old(target.value.attempts), 3);
        && (r.Pass? <==> written == 3)
        && (r.Fail? ==> r.error == WriteFailed)
        && target.value.written
           == (if filename == "" then old(target.value.written) else [])
              + DotEnvLines(exported, credentials)[..written]
        && target.value.attempts == old(target.value.attempts) + (if written == 3 then 3 else written + 1)
    ensures filename == "" && open.Opened? && open.stream != stdout ==> unchanged(open.stream)
    ensures filename != "" && open.Opened? && open.stream != stdout ==> unchanged(stdout)
  {
    var file := stdout;
    if filename != "" {
      match open
      case OpenFailed(message) =>
        return Fail(OpenError(message));
      case Opened(stream) =>
        stream.Truncate();
        file := stream;
    }

    var ok := WriteEnvVars(file, DotEnvLines(exported, credentials));
    r := if ok then Pass else Fail(WriteFailed);
  }
}

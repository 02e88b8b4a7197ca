/** pkg/cmd/env/exec.go: the environment handed to the executed program, which is
    the current one with the three AWS credential variables replaced. */
module Exec {
  import opened Wrappers
  import opened Environ
  import opened Text

  const AccessKeyIdVar := "AWS_ACCESS_KEY_ID"
  const SecretAccessKeyVar := "AWS_SECRET_ACCESS_KEY"
  const SessionTokenVar := "AWS_SESSION_TOKEN"

  /** The order in which the credential entries are appended. */
  const CredentialNames := [AccessKeyIdVar, SecretAccessKeyVar, SessionTokenVar]

  /** The keys of the `credentialValues` map. */
  predicate IsCredentialName(name: string)
  {
    name == AccessKeyIdVar || name == SecretAccessKeyVar || name == SessionTokenVar
  }

  /** Every entry is NAME=VALUE. An entry without '=' makes splitEnvironmentVariable
      index past the end of its result, a run-time panic, so callers must not pass one. */
  predicate WellFormed(env: seq<string>)
  {
    forall e | e in env :: '=' in e
  }

  /** `strings.SplitN(entry, "=", 2)`: the text before the first '=' and the text after it. */
  function SplitEnvironmentVariable(entry: string): (r: (string, string))
    requires '=' in entry
    ensures '=' !in r.0
    ensures r.0 + "=" + r.1 == entry
  {
    var i := IndexOf(entry, '=');
    assert entry == entry[..i] + "=" + entry[i + 1..];
    (entry[..i], entry[i + 1..])
  }

  /** Splitting undoes joining, for a name without '='. */
  lemma SplitJoin(name: string, value: string)
    requires '=' !in name
    ensures '=' in name + "=" + value
    ensures SplitEnvironmentVariable(name + "=" + value) == (name, value)
  {
    IndexOfAfter(name, '=', value);
    var e := name + "=" + value;
    assert e == name + ['='] + value;
    assert e[..|name|] == name && e[|name| + 1..] == value;
  }

  function NameOf(entry: string): string
    requires '=' in entry
  {
    SplitEnvironmentVariable(entry).0
  }

  /** The entries the first loop keeps, in their original order. */
  function KeptEntries(env: seq<string>): seq<string>
    requires WellFormed(env)
  {
    if env == [] then []
    else
      var last := env[|env| - 1];
      KeptEntries(env[..|env| - 1]) + (if IsCredentialName(NameOf(last)) then [] else [last])
  }

  /** `fmt.Sprintf("%s=%s", name, *value)`, or `name=` for a nil value. */
  function CredentialEntry(name: string, value: Option<string>): string
  {
    name + "=" + ValueOrEmpty(value)
  }

  function CredentialValues(c: StsCredentials): seq<Option<string>>
  {
    [c.accessKeyId, c.secretAccessKey, c.sessionToken]
  }

  /** The `credentialValues` map of exec.go:38-42. */
  function CredentialMap(c: StsCredentials): map<string, Option<string>>
  {
    map[AccessKeyIdVar := c.accessKeyId, SecretAccessKeyVar := c.secretAccessKey, SessionTokenVar := c.sessionToken]
  }

  lemma CredentialMapLookup(c: StsCredentials, i: nat)
    requires i < 3
    ensures CredentialNames[i] in CredentialMap(c)
    ensures CredentialMap(c)[CredentialNames[i]] == CredentialValues(c)[i]
  {
  }

  lemma CredentialMapKeys(c: StsCredentials, name: string)
    ensures name in CredentialMap(c) <==> IsCredentialName(name)
  {
  }

  function CredentialEntries(c: StsCredentials): seq<string>
  {
    [CredentialEntry(AccessKeyIdVar, c.accessKeyId),
     CredentialEntry(SecretAccessKeyVar, c.secretAccessKey),
     CredentialEntry(SessionTokenVar, c.sessionToken)]
  }

  lemma CredentialEntriesAt(c: StsCredentials, i: nat)
    requires i < 3
    ensures CredentialEntries(c)[i] == CredentialEntry(CredentialNames[i], CredentialValues(c)[i])
  {
    if i == 0 {
    } else if i == 1 {
    } else {
    }
  }

  method NewEnvironmentWithCredentials(env: seq<string>, credentials: StsCredentials) returns (result: seq<string>)
    requires WellFormed(env)
    ensures result == KeptEntries(env) + CredentialEntries(credentials)
  {
    result := [];
    var credentialValues := CredentialMap(credentials);

    for i := 0 to |env|
      invariant result == KeptEntries(env[..i])
    {
      var envEntry := env[i];
      var (name, _) := SplitEnvironmentVariable(envEntry);
      CredentialMapKeys(credentials, name);
      if name !in credentialValues {
        result := result + [envEntry];
      }
      assert env[..i + 1][..i] == env[..i];
    }
    assert env[..|env|] == env;

    ghost var kept := result;
    for i := 0 to |CredentialNames|
      invariant result == kept + CredentialEntries(credentials)[..i]
    {
      var name := CredentialNames[i];
      CredentialMapLookup(credentials, i);
      CredentialEntriesAt(credentials, i);
      var value := credentialValues[name];
      assert CredentialEntries(credentials)[..i + 1] == CredentialEntries(credentials)[..i] + [CredentialEntries(credentials)[i]];
      if value.Some? {
        result := result + [name + "=" + value.value];
      } else {
        assert CredentialEntry(name, value) == name + "=";
        result := result + [name + "="];
      }
    }
  }

  // ---------------------------------------------------------------------------
  // What the merged environment satisfies

  /** An entry survives the first loop exactly when it is in the input and does
      not name a credential variable. */
  lemma {:induction false} KeptEntriesMembership(env: seq<string>, e: string)
    requires WellFormed(env)
    ensures e in KeptEntries(env) <==> e in env && !IsCredentialName(NameOf(e))
  {
    if env != [] {
      var init := env[..|env| - 1];
      assert env == init + [env[|env| - 1]];
      KeptEntriesMembership(init, e);
    }
  }

  /** The first loop never adds entries. */
  lemma {:induction false} KeptEntriesLength(env: seq<string>)
    requires WellFormed(env)
    ensures |KeptEntries(env)| <= |env|
  {
    if env != [] {
      KeptEntriesLength(env[..|env| - 1]);
    }
  }

  /** Entries that carry no credential variable are all kept, in order, so the
      merge leaves such an environment as it was, apart from the three entries. */
  lemma {:induction false} KeptEntriesIdentity(env: seq<string>)
    requires WellFormed(env)
    requires forall e | e in env :: !IsCredentialName(NameOf(e))
    ensures KeptEntries(env) == env
  {
    if env != [] {
      var init := env[..|env| - 1];
      assert env == init + [env[|env| - 1]];
      KeptEntriesIdentity(init);
    }
  }

  /** The kept entries of a concatenation are those of each part, concatenated. */
  lemma {:induction false} KeptEntriesConcat(a: seq<string>, b: seq<string>)
    requires WellFormed(a) && WellFormed(b)
    ensures WellFormed(a + b)
    ensures KeptEntries(a + b) == KeptEntries(a) + KeptEntries(b)
  {
    if b == [] {
      assert a + b == a;
    } else {
      var binit := b[..|b| - 1];
      assert (a + b)[..|a + b| - 1] == a + binit;
      KeptEntriesConcat(a, binit);
    }
  }

  /** The number of entries of `env` that set the variable `name`. */
  function CountNamed(env: seq<string>, name: string): nat
    requires WellFormed(env)
  {
    if env == [] then 0
    else CountNamed(env[..|env| - 1], name) + (if NameOf(env[|env| - 1]) == name then 1 else 0)
  }

  lemma {:induction false} CountNamedConcat(a: seq<string>, b: seq<string>, name: string)
    requires WellFormed(a) && WellFormed(b)
    ensures WellFormed(a + b)
    ensures CountNamed(a + b, name) == CountNamed(a, name) + CountNamed(b, name)
  {
    if b == [] {
      assert a + b == a;
    } else {
      var binit := b[..|b| - 1];
      assert (a + b)[..|a + b| - 1] == a + binit;
      CountNamedConcat(a, binit, name);
    }
  }

  lemma {:induction false} CountNamedAbsent(env: seq<string>, name: string)
    requires WellFormed(env)
    requires forall e | e in env :: NameOf(e) != name
    ensures CountNamed(env, name) == 0
  {
    if env != [] {
      CountNamedAbsent(env[..|env| - 1], name);
    }
  }

  /** The three appended entries set the three credential variables, in that order. */
  lemma CredentialEntryNames(c: StsCredentials)
    ensures WellFormed(CredentialEntries(c))
    ensures NameOf(CredentialEntries(c)[0]) == AccessKeyIdVar
    ensures NameOf(CredentialEntries(c)[1]) == SecretAccessKeyVar
    ensures NameOf(CredentialEntries(c)[2]) == SessionTokenVar
  {
    SplitJoin(AccessKeyIdVar, ValueOrEmpty(c.accessKeyId));
    SplitJoin(SecretAccessKeyVar, ValueOrEmpty(c.secretAccessKey));
    SplitJoin(SessionTokenVar, ValueOrEmpty(c.sessionToken));
  }

  /** Every kept entry is well formed and sets no credential variable. */
  lemma KeptEntriesClean(env: seq<string>)
    requires WellFormed(env)
    ensures WellFormed(KeptEntries(env))
    ensures forall e | e in KeptEntries(env) :: !IsCredentialName(NameOf(e))
  {
    forall e | e in KeptEntries(env) ensures '=' in e && !IsCredentialName(NameOf(e)) {
      KeptEntriesMembership(env, e);
    }
  }

  /** Each credential variable is set by exactly one of the three appended entries. */
  lemma CredentialEntriesCount(c: StsCredentials, name: string)
    requires IsCredentialName(name)
    ensures WellFormed(CredentialEntries(c))
    ensures CountNamed(CredentialEntries(c), name) == 1
  {
    var added := CredentialEntries(c);
    CredentialEntryNames(c);
    var first := added[..1];
    var firstTwo := added[..2];
    assert firstTwo[..1] == first && first[..0] == [];
    assert CountNamed(first, name) == if name == AccessKeyIdVar then 1 else 0;
    assert CountNamed(firstTwo, name) == if name == SessionTokenVar then 0 else 1;
  }

  /** The merged environment sets each credential variable exactly once, whatever
      entries for it the input held. */
  lemma MergedEnvironment(env: seq<string>, c: StsCredentials, name: string)
    requires WellFormed(env) && IsCredentialName(name)
    ensures WellFormed(KeptEntries(env) + CredentialEntries(c))
    ensures CountNamed(KeptEntries(env) + CredentialEntries(c), name) == 1
  {
    var kept := KeptEntries(env);
    KeptEntriesClean(env);
    CountNamedAbsent(kept, name);
    CredentialEntriesCount(c, name);
    CountNamedConcat(kept, CredentialEntries(c), name);
  }

  /** The merged environment is the kept entries plus three, so at most three entries
      longer than the input. */
  lemma MergedEnvironmentLength(env: seq<string>, c: StsCredentials)
    requires WellFormed(env)
    ensures |KeptEntries(env) + CredentialEntries(c)| == |KeptEntries(env)| + 3 <= |env| + 3
  {
    KeptEntriesLength(env);
  }

  /** exec_test.go:21-23, for any two entries that are not credential variables
      (the test's "A=B" and "C=D") and any new values: both are kept, in order. */
  lemma ExecTestSimple(a: string, b: string, c: string, d: string, key: string, secret: string, token: string)
    requires '=' !in a && '=' !in c && !IsCredentialName(a) && !IsCredentialName(c)
    ensures var creds := StsCredentials(Some(key), Some(secret), Some(token), None);
      KeptEntries([a + "=" + b, c + "=" + d]) + CredentialEntries(creds)
      == [a + "=" + b, c + "=" + d,
          AccessKeyIdVar + "=" + key, SecretAccessKeyVar + "=" + secret, SessionTokenVar + "=" + token]
  {
    SplitJoin(a, b);
    SplitJoin(c, d);
    KeptEntriesIdentity([a + "=" + b, c + "=" + d]);
  }

  /** exec_test.go:24-27, for any stale and any new values: a stale access key is dropped. */
  lemma ExecTestReplace(stale: string, key: string, secret: string, token: string)
    ensures var c := StsCredentials(Some(key), Some(secret), Some(token), None);
      KeptEntries([AccessKeyIdVar + "=" + stale, "C=D"]) + CredentialEntries(c)
      == ["C=D", AccessKeyIdVar + "=" + key, SecretAccessKeyVar + "=" + secret, SessionTokenVar + "=" + token]
  {
    var env := [AccessKeyIdVar + "=" + stale, "C=D"];
    SplitJoin(AccessKeyIdVar, stale);
    SplitJoin("C", "D");
    assert "C" + "=" + "D" == env[1];
    assert env[..1] == [env[0]] && env[..1][..0] == [];
    assert KeptEntries(env[..1]) == [];
  }

  /** exec_test.go:28-31, for any old and any new values: all three variables are replaced. */
  lemma ExecTestOverrideAll(oldKey: string, oldSecret: string, oldToken: string,
                            key: string, secret: string, token: string)
    ensures var c := StsCredentials(Some(key), Some(secret), Some(token), None);
      KeptEntries([AccessKeyIdVar + "=" + oldKey, SecretAccessKeyVar + "=" + oldSecret,
                   SessionTokenVar + "=" + oldToken]) + CredentialEntries(c)
      == [AccessKeyIdVar + "=" + key, SecretAccessKeyVar + "=" + secret, SessionTokenVar + "=" + token]
  {
    var env := [AccessKeyIdVar + "=" + oldKey, SecretAccessKeyVar + "=" + oldSecret,
                SessionTokenVar + "=" + oldToken];
    SplitJoin(AccessKeyIdVar, oldKey);
    SplitJoin(SecretAccessKeyVar, oldSecret);
    SplitJoin(SessionTokenVar, oldToken);
    var kept := KeptEntries(env);
    if kept != [] {
      KeptEntriesMembership(env, kept[0]);
    }
  }
}

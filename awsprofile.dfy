/** pkg/cmd/awsprofile/cmd.go: the `aws-profile` command, which stores the
    credentials under a profile of the AWS shared credentials file. The file is an
    ini file, held here as its sections, each a map from key to value. */
module AwsProfile {
  import opened Wrappers
  import opened Environ

  const ProfileVar := "GITLAB_AWS_PROFILE"
  const DefaultProfile := "default"
  const CredentialsFileVar := "AWS_SHARED_CREDENTIALS_FILE"
  const HomeVar := "HOME"
  const CredentialsFileInHome := "/.aws/credentials"

  const AccessKeyIdKey := "aws_access_key_id"
  const SecretAccessKeyKey := "aws_secret_access_key"
  const SessionTokenKey := "aws_session_token"
  const ExpirationKey := "expiration"

  /** The keys WriteToSharedConfig sets in the profile's section. */
  const ProfileKeys := [AccessKeyIdKey, SecretAccessKeyKey, SessionTokenKey, ExpirationKey]

  /** What the Go runtime reports when a nil credential pointer is dereferenced. */
  const NilDereference := "invalid memory address or nil pointer dereference"

  type Section = map<string, string>
  type Sections = map<string, Section>

  /** The default of --aws-profile: the variable if it is non-empty, else "default". */
  function ProfileDefault(env: Env): (profile: string)
    ensures profile != ""
    ensures Getenv(env, ProfileVar) != "" ==> profile == Getenv(env, ProfileVar)
    ensures Getenv(env, ProfileVar) == "" ==> profile == DefaultProfile
  {
    var value := Getenv(env, ProfileVar);
    if value == "" then DefaultProfile else value
  }

  /** PreRunE: refuses an empty profile name, which only an explicit `-p ""` gives. */
  function PreRun(profile: string): (r: Outcome<string>)
    ensures r.Fail? <==> profile == ""
  {
    if profile == "" then Fail("no --aws-profile was specified or GITLAB_AWS_PROFILE was empty.")
    else Pass
  }

  /** The file to update: AWS_SHARED_CREDENTIALS_FILE if it is non-empty, else
      `$HOME/.aws/credentials` with $HOME expanded (to "" when it is unset). */
  function CredentialsPath(env: Env): (path: string)
    ensures Getenv(env, CredentialsFileVar) != "" ==> path == Getenv(env, CredentialsFileVar)
    ensures Getenv(env, CredentialsFileVar) == "" ==>
      path == Getenv(env, HomeVar) + CredentialsFileInHome
  {
    var value := Getenv(env, CredentialsFileVar);
    if value == "" then Getenv(env, HomeVar) + CredentialsFileInHome else value
  }

  /** The `values` map: one entry per profile key, or None when a credential is nil
      and building the map dereferences a nil pointer. */
  function ProfileValues(c: StsCredentials): (r: Option<Section>)
    ensures r.Some? <==>
      c.accessKeyId.Some? && c.secretAccessKey.Some? && c.sessionToken.Some? && c.expiration.Some?
    ensures r.Some? ==>
      && r.value.Keys == {AccessKeyIdKey, SecretAccessKeyKey, SessionTokenKey, ExpirationKey}
      && r.value[AccessKeyIdKey] == c.accessKeyId.value
      && r.value[SecretAccessKeyKey] == c.secretAccessKey.value
      && r.value[SessionTokenKey] == c.sessionToken.value
      && r.value[ExpirationKey] == c.expiration.value
  {
    match (c.accessKeyId, c.secretAccessKey, c.sessionToken, c.expiration)
    case (Some(id), Some(secret), Some(token), Some(expiration)) =>
      Some(map[AccessKeyIdKey := id, SecretAccessKeyKey := secret,
               SessionTokenKey := token, ExpirationKey := expiration])
    case _ => None
  }

  /** The sections after the profile's section is looked up or created. */
  function WithSection(sections: Sections, profile: string): (r: Sections)
    ensures r.Keys == sections.Keys + {profile}
    ensures profile in sections ==> r == sections
    ensures profile !in sections ==> r[profile] == map[]
    ensures forall name | name in sections :: r[name] == sections[name]
  {
    if profile in sections then sections else sections[profile := map[]]
  }

  /** The update WriteToSharedConfig makes: the profile's section exists, holds
      `values`, and keeps its other keys; every other section is left alone. */
  function Upsert(sections: Sections, profile: string, values: Section): (r: Sections)
    ensures r.Keys == sections.Keys + {profile}
    ensures forall name | name in sections && name != profile :: r[name] == sections[name]
    ensures r[profile].Keys == WithSection(sections, profile)[profile].Keys + values.Keys
    ensures forall key | key in values :: r[profile][key] == values[key]
    ensures forall key | key in WithSection(sections, profile)[profile] && key !in values ::
      r[profile][key] == sections[profile][key]
  {
    var section := WithSection(sections, profile)[profile];
    sections[profile := section + values]
  }

  /** Upserting the same values twice changes nothing the second time. */
  lemma UpsertIdempotent(sections: Sections, profile: string, values: Section)
    ensures Upsert(Upsert(sections, profile, values), profile, values) == Upsert(sections, profile, values)
  {
    var once := Upsert(sections, profile, values);
    assert WithSection(once, profile)[profile] == once[profile];
    assert once[profile] + values == once[profile];
  }

  /** Setting the keys of `order` one after another, each to its value in `values`. */
  function SetInOrder(section: Section, values: Section, order: seq<string>): Section
    requires forall key | key in order :: key in values
  {
    if |order| == 0 then section
    else
      var key := order[|order| - 1];
      SetInOrder(section, values, order[..|order| - 1])[key := values[key]]
  }

  /** The part of `values` whose keys occur in `keys`. */
  function Restrict(values: Section, keys: seq<string>): Section
  {
    map key | key in values && key in keys :: values[key]
  }

  /** Setting keys one at a time, in any order and even with repeats, gives the
      merge of the keys set: the iteration order of `values` does not matter. */
  lemma {:induction false} SetInOrderMerges(section: Section, values: Section, order: seq<string>)
    requires forall key | key in order :: key in values
    ensures SetInOrder(section, values, order) == section + Restrict(values, order)
  {
    if |order| == 0 {
      assert Restrict(values, order) == map[];
    } else {
      var init := order[..|order| - 1];
      var key := order[|order| - 1];
      SetInOrderMerges(section, values, init);
      assert order == init + [key];
      assert Restrict(values, order) == Restrict(values, init)[key := values[key]];
    }
  }

  /** Two iteration orders over the same keys give the same section. */
  lemma OrderIndependent(section: Section, values: Section, order1: seq<string>, order2: seq<string>)
    requires forall key :: key in order1 <==> key in values
    requires forall key :: key in order2 <==> key in values
    ensures SetInOrder(section, values, order1) == SetInOrder(section, values, order2)
  {
    SetInOrderMerges(section, values, order1);
    SetInOrderMerges(section, values, order2);
    assert Restrict(values, order1) == Restrict(values, order2);
  }

  /** An order in which `range values` can visit the map: each profile key once. */
  predicate IsIterationOrder(order: seq<string>)
  {
    && |order| == |ProfileKeys|
    && (forall key | key in order :: key in ProfileKeys)
    && (forall key | key in ProfileKeys :: key in order)
  }

  /** The keys of the `values` map are exactly the profile keys. */
  lemma ProfileValuesKeys(c: StsCredentials)
    requires ProfileValues(c).Some?
    ensures forall key :: key in ProfileValues(c).value <==> key in ProfileKeys
  {
  }

  /** Setting the keys of an iteration order one by one in the looked-up section is
      the upsert. */
  lemma UpsertInOrder(sections: Sections, profile: string, values: Section, order: seq<string>)
    requires IsIterationOrder(order)
    requires forall key :: key in values <==> key in ProfileKeys
    ensures var start := WithSection(sections, profile);
      start[profile := SetInOrder(start[profile], values, order)] == Upsert(sections, profile, values)
  {
    var start := WithSection(sections, profile);
    SetInOrderMerges(start[profile], values, order);
    assert Restrict(values, order) == values;
  }

  /** The loaded credentials file (ini.File), updated in place. */
  class IniFile {
    var sections: Sections

    constructor (sections: Sections)
      ensures this.sections == sections
    {
      this.sections := sections;
    }

    predicate HasSection(name: string)
      reads this
    {
      name in sections
    }

    predicate HasKey(section: string, key: string)
      reads this
    {
      section in sections && key in sections[section]
    }

    method NewSection(name: string)
      modifies this
      ensures sections == old(sections)[name := map[]]
    {
      sections := sections[name := map[]];
    }

    /** section.Key(key).SetValue(value) on a key that exists. */
    method SetValue(section: string, key: string, value: string)
      requires section in sections
      modifies this
      ensures sections == old(sections)[section := old(sections)[section][key := value]]
    {
      sections := sections[section := sections[section][key := value]];
    }

    /** section.NewKey(key, value); its error is only logged, so it is not modelled. */
    method NewKey(section: string, key: string, value: string)
      requires section in sections
      modifies this
      ensures sections == old(sections)[section := old(sections)[section][key := value]]
    {
      sections := sections[section := sections[section][key := value]];
    }
  }

  /** The `for key, value := range values` loop: each key of `order` in turn is set
      in the profile's section, by SetValue when it exists and by NewKey otherwise. */
  method SetValues(cfg: IniFile, profile: string, values: Section, order: seq<string>)
    requires profile in cfg.sections
    requires forall key | key in order :: key in values
    modifies cfg
    ensures cfg.sections == old(cfg.sections)[profile := SetInOrder(old(cfg.sections)[profile], values, order)]
  {
    for i := 0 to |order|
      invariant cfg.sections == old(cfg.sections)[profile := SetInOrder(old(cfg.sections)[profile], values, order[..i])]
    {
      var key := order[i];
      assert order[..i + 1][..i] == order[..i];
      if cfg.HasKey(profile, key) {
        cfg.SetValue(profile, key, values[key]);
      } else {
        cfg.NewKey(profile, key, values[key]);
      }
    }
    assert order[..|order|] == order;
  }

  /** The section and key update of WriteToSharedConfig. `order` is the order in
      which `range values` visits the four keys, which Go leaves unspecified. When a
      credential is nil, the section has been created when the map literal panics. */
  method WriteToSharedConfig(cfg: IniFile, profileName: string, credentials: StsCredentials,
                             order: seq<string>) returns (r: Outcome<string>)
    requires profileName != ""
    requires IsIterationOrder(order)
    modifies cfg
    ensures ProfileValues(credentials).None? ==>
      r == Fail(NilDereference) && cfg.sections == WithSection(old(cfg.sections), profileName)
    ensures ProfileValues(credentials).Some? ==>
      r == Pass && cfg.sections == Upsert(old(cfg.sections), profileName, ProfileValues(credentials).value)
  {
    if !cfg.HasSection(profileName) {
      cfg.NewSection(profileName);
    }
    var start := cfg.sections;
    assert start == WithSection(old(cfg.sections), profileName);
    var maybeValues := ProfileValues(credentials);
    if maybeValues.None? {
      return Fail(NilDereference);
    }
    var values := maybeValues.value;
    ProfileValuesKeys(credentials);
    SetValues(cfg, profileName, values, order);
    UpsertInOrder(old(cfg.sections), profileName, values, order);
    return Pass;
  }
}

/** The process environment and the temporary credentials returned by STS. */
module Environ {
  import opened Wrappers

  /** A snapshot of the process environment. A variable that is absent reads as
      the empty string, as with Go's os.Getenv. */
  type Env = map<string, string>

  function Getenv(env: Env, name: string): string
  {
    if name in env then env[name] else ""
  }

  /** The temporary credentials of an STS AssumeRoleWithWebIdentity response.
      Each field is a pointer in the SDK and may be nil. The expiration time is
      kept as its RFC 3339 rendering; the formatting is not modelled. */
  datatype StsCredentials = StsCredentials(
    accessKeyId: Option<string>,
    secretAccessKey: Option<string>,
    sessionToken: Option<string>,
    expiration: Option<string>)

  /** What the output writers make of a possibly nil string pointer. */
  function ValueOrEmpty(p: Option<string>): string
  {
    if p.Some? then p.value else ""
  }
}

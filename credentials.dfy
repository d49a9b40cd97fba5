/**
 * Resolution of the service-account credentials file
 * (credentials/application_credentials_provider.go). The process
 * environment is a parameter; os.Getenv yields "" for an unset variable.
 */
module Credentials {
  import opened Wrappers

  /** Holds the path of the credentials file; the file itself is never read here. */
  datatype ApplicationCredentialsProvider = ApplicationCredentialsProvider(filePath: string)

  /** What the SDK option constructor is given: the credentials file path. */
  datatype ClientOption = WithCredentialsFile(path: string)

  /** A snapshot of the process environment. */
  type Environment = map<string, string>

  const CredentialsVariable: string := "GOOGLE_APPLICATION_CREDENTIALS"

  /** os.Getenv: an unset variable reads as the empty string. */
  function Getenv(env: Environment, name: string): string
  {
    if name in env then env[name] else ""
  }

  function CredentialsPath(env: Environment): (r: Result<string, string>)
    ensures r.Success? <==> Getenv(env, CredentialsVariable) != ""
    ensures r.Success? ==> r.value == Getenv(env, CredentialsVariable)
    ensures r.Failure? ==>
      |r.error| >= |CredentialsVariable|
      && r.error[|r.error| - |CredentialsVariable|..] == CredentialsVariable
  {
    var fpath := Getenv(env, CredentialsVariable);
    if fpath == "" then Failure("unable to read " + CredentialsVariable)
    else Success(fpath)
  }

  function NewApplicationCredentials(filename: string, env: Environment): (r: Result<ApplicationCredentialsProvider, string>)
    ensures filename != "" ==> r == Success(ApplicationCredentialsProvider(filename))
    ensures filename == "" ==>
      (r.Success? <==> Getenv(env, CredentialsVariable) != "")
      && (r.Success? ==> r.value.filePath == Getenv(env, CredentialsVariable))
      && (r.Failure? ==> r.error == CredentialsPath(env).error)
    ensures r.Success? ==> r.value.filePath != ""
  {
    if filename != "" then Success(ApplicationCredentialsProvider(filename))
    else
      var fpath :- CredentialsPath(env);
      Success(ApplicationCredentialsProvider(fpath))
  }

  /** An explicit file name is used as it is, whatever the environment holds. */
  lemma ExplicitFilenameIgnoresEnvironment(filename: string, env1: Environment, env2: Environment)
    requires filename != ""
    ensures NewApplicationCredentials(filename, env1) == NewApplicationCredentials(filename, env2)
  {
  }

  /** The option handed to the SDK names the resolved file. */
  function Provide(p: ApplicationCredentialsProvider): (o: ClientOption)
    ensures o.path == p.filePath
  {
    WithCredentialsFile(p.filePath)
  }
}

/** The backend's configuration record, read once from the process
    environment (given here as a map from variable name to value). */
module Config {
  import opened Common

  /** The words that `readBool` accepts as true, after lower-casing. */
  const TrueWords: seq<string> := ["1", "true", "yes", "y", "on"]

  /** `readBool(name, default)`, given the variable's value (None when the
      variable is not set). */
  function ReadBool(raw: Option<string>, defaultValue: bool): (r: bool)
    ensures raw.None? ==> r == defaultValue
    ensures raw.Some? ==> (r <==> exists i :: 0 <= i < |TrueWords| && Lower(raw.value) == TrueWords[i])
  {
    match raw
    case None => defaultValue
    case Some(s) => Lower(s) in TrueWords
  }

  /** A set variable that is not one of the true words reads as false, even
      when it is empty and even when the default is true. */
  lemma {:induction false} ReadBoolDefinedNotTrue(s: string, defaultValue: bool)
    requires forall i :: 0 <= i < |TrueWords| ==> Lower(s) != TrueWords[i]
    ensures !ReadBool(Some(s), defaultValue)
  {
  }

  lemma ReadBoolExamples(d: bool)
    ensures !ReadBool(Some(""), d) && !ReadBool(Some("0"), d) && !ReadBool(Some("false"), d)
    ensures ReadBool(Some("TRUE"), d) && ReadBool(Some("Yes"), d) && ReadBool(Some("ON"), d)
  {
    assert Lower("TRUE") == "true";
    assert Lower("Yes") == "yes";
    assert Lower("ON") == "on";
    assert Lower("false") == "false";
  }

  /** `process.env[name]`: None when unset. */
  function Var(vars: map<string, string>, name: string): Option<string> {
    if name in vars then Some(vars[name]) else None
  }

  /** `String(process.env[name] ?? default)` */
  function VarOr(vars: map<string, string>, name: string, default: string): (r: string)
    ensures name in vars ==> r == vars[name]
    ensures name !in vars ==> r == default
  {
    Var(vars, name).GetOr(default)
  }

  datatype Env = Env(
    apiPrefix: string,
    corsOrigin: string,
    useLambda: bool,
    awsRegion: string,
    healthLambdaFunctionName: string,
    authDisabled: bool,
    cognitoRegion: string,
    cognitoUserPoolId: string,
    cognitoClientId: string,
    environment: string,
    logLevel: string)

  /** The exported `env` record. */
  function LoadEnv(vars: map<string, string>): (e: Env)
    ensures e.authDisabled == ReadBool(Var(vars, "AUTH_DISABLED"), true)
    ensures e.useLambda == ReadBool(Var(vars, "USE_LAMBDA"), false)
    ensures e.cognitoRegion == VarOr(vars, "COGNITO_REGION", "il-central-1")
    ensures e.cognitoUserPoolId == VarOr(vars, "COGNITO_USER_POOL_ID", "")
    ensures e.cognitoClientId == VarOr(vars, "COGNITO_CLIENT_ID", "")
  {
    Env(
      apiPrefix := VarOr(vars, "API_PREFIX", ""),
      corsOrigin := VarOr(vars, "CORS_ORIGIN", "*"),
      useLambda := ReadBool(Var(vars, "USE_LAMBDA"), false),
      awsRegion := VarOr(vars, "AWS_REGION", VarOr(vars, "COGNITO_REGION", "il-central-1")),
      healthLambdaFunctionName := VarOr(vars, "HEALTH_LAMBDA_FUNCTION_NAME", "charging-stations-health"),
      authDisabled := ReadBool(Var(vars, "AUTH_DISABLED"), true),
      cognitoRegion := VarOr(vars, "COGNITO_REGION", "il-central-1"),
      cognitoUserPoolId := VarOr(vars, "COGNITO_USER_POOL_ID", ""),
      cognitoClientId := VarOr(vars, "COGNITO_CLIENT_ID", ""),
      environment := VarOr(vars, "ENVIRONMENT", "local"),
      logLevel := VarOr(vars, "LOG_LEVEL", "info"))
  }

  /** With nothing set, authentication is off, Lambda is off, the pool id is
      empty and the region is il-central-1. */
  lemma LoadEnvDefaults()
    ensures LoadEnv(map[]).authDisabled
    ensures !LoadEnv(map[]).useLambda
    ensures LoadEnv(map[]).cognitoUserPoolId == ""
    ensures LoadEnv(map[]).cognitoRegion == "il-central-1"
    ensures LoadEnv(map[]).awsRegion == "il-central-1"
    ensures LoadEnv(map[]).logLevel == "info"
  {
  }

  /** Authentication is enforced exactly when AUTH_DISABLED is set to a
      value that is not one of the true words. */
  lemma {:induction false} AuthEnforcedIff(vars: map<string, string>)
    ensures !LoadEnv(vars).authDisabled <==>
      ("AUTH_DISABLED" in vars && Lower(vars["AUTH_DISABLED"]) !in TrueWords)
  {
  }
}

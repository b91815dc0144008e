/**
 * The server configuration: every setting is read from the process environment, which is
 * passed in here as a map from variable names to values.
 */
module EnvConfig {
  import opened Wrappers

  /** The message thrown for a required variable that is missing. */
  function MissingMessage(name: string): string
  {
    "Environment variable " + name + " is not defined"
  }

  /** A variable counts as set when it is present with a non-empty value (`!value` is true for ""). */
  predicate IsSet(env: map<string, string>, name: string)
  {
    name in env && env[name] != ""
  }

  /**
   * `getEnvVariable(name, required)`: fails exactly for a required variable that is unset,
   * returns a set value verbatim, and returns "" for an unset optional one.
   */
  function GetEnvVariable(env: map<string, string>, name: string, required: bool := true): (r: Result<string, string>)
    ensures r.Failure? <==> required && !IsSet(env, name)
    ensures r.Failure? ==> r.error == MissingMessage(name)
    ensures r.Success? && IsSet(env, name) ==> r.value == env[name]
    ensures r.Success? && !IsSet(env, name) ==> r.value == ""
  {
    var value := if name in env then env[name] else "";
    if value == "" && required then Failure(MissingMessage(name))
    else Success(value)
  }

  datatype Config = Config(
    port: string, mongoUrl: string, jwtSecret: string, jwtLifetime: string, nodeEnv: string,
    watermarkImgName: string, awsRegion: string, awsAccessKey: string, awsSecretKey: string,
    awsBucketName: string, awsMediaConvertRole: string, awsMediaConvertQueue: string,
    awsSqsQueueUrl: string, awsTempBucketName: string)

  /** The variable names of the config record, in the order the record expression reads them. */
  const ConfigNames: seq<string> := [
    "PORT", "MONGO_URL", "JWT_SECRET", "JWT_LIFETIME", "NODE_ENV", "WATERMARK_IMG_NAME",
    "AWS_REGION", "AWS_ACCESS_KEY", "AWS_SECRET_KEY", "AWS_BUCKET_NAME",
    "AWS_MEDIA_CONVERT_ROLE", "AWS_MEDIA_CONVERT_QUEUE", "AWS_SQS_QUEUE_URL", "AWS_TEMP_BUCKET_NAME"]

  /** The field values of a config, in the order of ConfigNames. */
  function Fields(c: Config): (r: seq<string>)
    ensures |r| == |ConfigNames|
  {
    [c.port, c.mongoUrl, c.jwtSecret, c.jwtLifetime, c.nodeEnv, c.watermarkImgName,
     c.awsRegion, c.awsAccessKey, c.awsSecretKey, c.awsBucketName,
     c.awsMediaConvertRole, c.awsMediaConvertQueue, c.awsSqsQueueUrl, c.awsTempBucketName]
  }

  /**
   * The `config` record: every field read as required, left to right; the first throw ends
   * construction, so building fails exactly when some variable is unset and the message names
   * an unset one. Each name is written as its position in ConfigNames.
   */
  function BuildConfig(env: map<string, string>): (r: Result<Config, string>)
    ensures r.Failure? <==> exists i :: 0 <= i < |ConfigNames| && !IsSet(env, ConfigNames[i])
    ensures r.Failure? ==> exists i :: 0 <= i < |ConfigNames| && !IsSet(env, ConfigNames[i]) && r.error == MissingMessage(ConfigNames[i])
  {
    var port :- GetEnvVariable(env, ConfigNames[0]);  // PORT
    var mongoUrl :- GetEnvVariable(env, ConfigNames[1]);  // MONGO_URL
    var jwtSecret :- GetEnvVariable(env, ConfigNames[2]);  // JWT_SECRET
    var jwtLifetime :- GetEnvVariable(env, ConfigNames[3]);  // JWT_LIFETIME
    var nodeEnv :- GetEnvVariable(env, ConfigNames[4]);  // NODE_ENV
    var watermarkImgName :- GetEnvVariable(env, ConfigNames[5]);  // WATERMARK_IMG_NAME
    var awsRegion :- GetEnvVariable(env, ConfigNames[6]);  // AWS_REGION
    var awsAccessKey :- GetEnvVariable(env, ConfigNames[7]);  // AWS_ACCESS_KEY
    var awsSecretKey :- GetEnvVariable(env, ConfigNames[8]);  // AWS_SECRET_KEY
    var awsBucketName :- GetEnvVariable(env, ConfigNames[9]);  // AWS_BUCKET_NAME
    var awsMediaConvertRole :- GetEnvVariable(env, ConfigNames[10]);  // AWS_MEDIA_CONVERT_ROLE
    var awsMediaConvertQueue :- GetEnvVariable(env, ConfigNames[11]);  // AWS_MEDIA_CONVERT_QUEUE
    var awsSqsQueueUrl :- GetEnvVariable(env, ConfigNames[12]);  // AWS_SQS_QUEUE_URL
    var awsTempBucketName :- GetEnvVariable(env, ConfigNames[13]);  // AWS_TEMP_BUCKET_NAME
    Success(Config(port, mongoUrl, jwtSecret, jwtLifetime, nodeEnv, watermarkImgName, awsRegion,
                   awsAccessKey, awsSecretKey, awsBucketName, awsMediaConvertRole,
                   awsMediaConvertQueue, awsSqsQueueUrl, awsTempBucketName))
  }

  /** The position of the first name in `names` that is unset in `env`, if any. */
  function FirstUnset(env: map<string, string>, names: seq<string>): (r: Option<nat>)
    ensures r.Some? ==> r.value < |names| && !IsSet(env, names[r.value])
                        && forall i :: 0 <= i < r.value ==> IsSet(env, names[i])
    ensures r.None? <==> forall i :: 0 <= i < |names| ==> IsSet(env, names[i])
  {
    if |names| == 0 then None
    else if !IsSet(env, names[0]) then Some(0)
    else match FirstUnset(env, names[1..])
      case None => None
      case Some(k) => Some(k + 1)
  }

  /** With every listed variable set, the config is built and each field holds its variable's value. */
  lemma BuildConfigAllSet(env: map<string, string>)
    requires forall i :: 0 <= i < |ConfigNames| ==> IsSet(env, ConfigNames[i])
    ensures BuildConfig(env).Success?
    ensures forall i :: 0 <= i < |ConfigNames| ==> Fields(BuildConfig(env).value)[i] == env[ConfigNames[i]]
  {
    var v := seq(|ConfigNames|, i requires 0 <= i < |ConfigNames| => env[ConfigNames[i]]);
    assert BuildConfig(env) == Success(Config(v[0], v[1], v[2], v[3], v[4], v[5], v[6], v[7], v[8], v[9],
                                              v[10], v[11], v[12], v[13]));
  }

  /** With the k-th listed variable the first unset one, construction throws naming it. */
  lemma BuildConfigUnset(env: map<string, string>, k: nat)
    requires k < |ConfigNames|
    requires forall i :: 0 <= i < k ==> IsSet(env, ConfigNames[i])
    requires !IsSet(env, ConfigNames[k])
    ensures BuildConfig(env) == Failure(MissingMessage(ConfigNames[k]))
  {
  }

  /**
   * Building the config fails exactly when some listed variable is unset, and the error names
   * the first unset one in listed order; on success each field holds its variable's value.
   */
  lemma BuildConfigReportsFirstUnset(env: map<string, string>)
    ensures BuildConfig(env).Failure? <==> FirstUnset(env, ConfigNames).Some?
    ensures BuildConfig(env).Failure? ==>
              BuildConfig(env).error == MissingMessage(ConfigNames[FirstUnset(env, ConfigNames).value])
    ensures BuildConfig(env).Success? ==>
              forall i :: 0 <= i < |ConfigNames| ==> Fields(BuildConfig(env).value)[i] == env[ConfigNames[i]]
  {
    match FirstUnset(env, ConfigNames)
    case None => BuildConfigAllSet(env);
    case Some(k) => BuildConfigUnset(env, k);
  }
}

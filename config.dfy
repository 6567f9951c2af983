/** The service's configuration (`backend/app/config.py`): values read once
    from the environment, the fields derived from them, the start-up
    validation and the dictionary view used for logging. */
module AppConfig {
  import opened Py

  const DefaultBucketName := "md-converter-bucket"
  const DefaultRegion := "us-east-1"
  const DefaultUrlExpiry := 300
  const DefaultMaxFileSizeMb := 10
  const DefaultEnvironment := "development"
  const DefaultLogLevel := "INFO"
  const SupportedOutputFormats: seq<string> := ["docx", "html"]

  const MinUrlExpiry := 60
  const MaxUrlExpiry := 3600

  /** The class attributes of `Config`; the derived ones are computed once,
      when the class is defined, and are stored like the others. */
  datatype Config = Config(
    bucketName: string,
    awsRegion: string,
    presignedUrlExpiry: int,
    maxFileSizeMb: int,
    maxFileSizeBytes: int,
    environment: string,
    isProduction: bool,
    isDevelopment: bool,
    logLevel: string)

  /** The settings as the environment provides them: `None` for an unset
      variable, the already converted integer for the numeric ones. */
  datatype Environment = Environment(
    bucketName: Option<string>,
    awsRegion: Option<string>,
    urlExpiry: Option<int>,
    maxFileSizeMb: Option<int>,
    environment: Option<string>,
    logLevel: Option<string>)

  /** The class body of `Config`: defaults for unset variables, then the
      derived size in bytes and the two environment flags. */
  function Load(env: Environment): (c: Config)
    ensures c.bucketName == env.bucketName.GetOr(DefaultBucketName)
    ensures c.awsRegion == env.awsRegion.GetOr(DefaultRegion)
    ensures c.presignedUrlExpiry == env.urlExpiry.GetOr(DefaultUrlExpiry)
    ensures c.maxFileSizeMb == env.maxFileSizeMb.GetOr(DefaultMaxFileSizeMb)
    ensures c.environment == env.environment.GetOr(DefaultEnvironment)
    ensures c.logLevel == env.logLevel.GetOr(DefaultLogLevel)
    ensures WellFormed(c)
  {
    var mb := env.maxFileSizeMb.GetOr(DefaultMaxFileSizeMb);
    var environment := env.environment.GetOr(DefaultEnvironment);
    Config(
      env.bucketName.GetOr(DefaultBucketName),
      env.awsRegion.GetOr(DefaultRegion),
      env.urlExpiry.GetOr(DefaultUrlExpiry),
      mb,
      mb * 1024 * 1024,
      environment,
      environment == "PROD",
      environment == "DEVELOPMENT",
      env.logLevel.GetOr(DefaultLogLevel))
  }

  /** How the derived attributes relate to the ones they are computed from. */
  predicate WellFormed(c: Config) {
    && c.maxFileSizeBytes == c.maxFileSizeMb * 1_048_576
    && (c.isProduction <==> c.environment == "PROD")
    && (c.isDevelopment <==> c.environment == "DEVELOPMENT")
  }

  /** With nothing set, every attribute takes its documented default; the
      default environment name is lower-case, so neither flag is set. */
  lemma DefaultsWhenUnset()
    ensures var c := Load(Environment(None, None, None, None, None, None));
      && c.bucketName == "md-converter-bucket"
      && c.awsRegion == "us-east-1"
      && c.presignedUrlExpiry == 300
      && c.maxFileSizeMb == 10
      && c.maxFileSizeBytes == 10_485_760
      && c.environment == "development"
      && !c.isProduction && !c.isDevelopment
      && c.logLevel == "INFO"
  {
  }

  /** The flags compare the environment name case-sensitively. */
  lemma FlagsAreCaseSensitive(env: Environment)
    requires env.environment.Some?
    ensures Load(env).isProduction <==> env.environment.value == "PROD"
    ensures Load(env).isDevelopment <==> env.environment.value == "DEVELOPMENT"
  {
  }

  /** `Config.validate()`: `None` when the configuration is accepted, else
      the text of the `ValueError` it raises. The production check comes first. */
  function Validate(c: Config): (r: Option<string>)
    ensures r.None? <==> !(c.isProduction && c.bucketName == DefaultBucketName)
                         && MinUrlExpiry <= c.presignedUrlExpiry <= MaxUrlExpiry
    ensures c.isProduction && c.bucketName == DefaultBucketName ==>
              r == Some("BUCKET_NAME debe ser configurado en producción")
    ensures !(c.isProduction && c.bucketName == DefaultBucketName)
            && !(MinUrlExpiry <= c.presignedUrlExpiry <= MaxUrlExpiry) ==>
              r == Some("URL_EXPIRY debe estar entre 60 y 3600 segundos")
  {
    if c.isProduction && c.bucketName == DefaultBucketName then
      Some("BUCKET_NAME debe ser configurado en producción")
    else if c.presignedUrlExpiry < MinUrlExpiry || c.presignedUrlExpiry > MaxUrlExpiry then
      Some("URL_EXPIRY debe estar entre 60 y 3600 segundos")
    else
      None
  }

  /** The expiry bound is inclusive at both ends: 60 and 3600 pass, 59 and
      3601 are rejected, whenever the production bucket check passes. */
  lemma ExpiryBoundaries(c: Config)
    requires !(c.isProduction && c.bucketName == DefaultBucketName)
    ensures c.presignedUrlExpiry in {60, 3600} ==> Validate(c).None?
    ensures c.presignedUrlExpiry in {59, 3601} ==>
              Validate(c) == Some("URL_EXPIRY debe estar entre 60 y 3600 segundos")
  {
  }

  /** `Config.get_config_dict()` */
  function ConfigDict(c: Config): (d: map<string, PyValue>)
    ensures d.Keys == {"bucket_name", "region", "url_expiry", "max_file_size_mb", "environment", "log_level"}
    ensures d["bucket_name"] == PyStr(c.bucketName) && d["region"] == PyStr(c.awsRegion)
    ensures d["url_expiry"] == PyInt(c.presignedUrlExpiry) && d["max_file_size_mb"] == PyInt(c.maxFileSizeMb)
    ensures d["environment"] == PyStr(c.environment) && d["log_level"] == PyStr(c.logLevel)
  {
    map[
      "bucket_name" := PyStr(c.bucketName),
      "region" := PyStr(c.awsRegion),
      "url_expiry" := PyInt(c.presignedUrlExpiry),
      "max_file_size_mb" := PyInt(c.maxFileSizeMb),
      "environment" := PyStr(c.environment),
      "log_level" := PyStr(c.logLevel)
    ]
  }
}

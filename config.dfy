/**
 * The config package: the handler's settings, read from the process
 * environment with a default for every variable that is unset or empty.
 * The environment is a map from variable names to values.
 */
module Config {
  import opened GoStrings

  const DefaultRegion := "us-east-1"
  const DefaultToEmail := "admin@example.com"
  const DefaultFromEmail := "contact@example.com"
  const DefaultAlertEmails := "admin@example.com"

  datatype Config = Config(region: string, toEmail: string, fromEmail: string, alertEmails: seq<string>)

  /** `os.Getenv`: the value of `key`, or "" when it is unset. */
  function OsGetenv(env: map<string, string>, key: string): string
  {
    if key in env then env[key] else ""
  }

  /** `getEnv`: the variable's value, or `defaultValue` when that value is empty. */
  function GetEnv(env: map<string, string>, key: string, defaultValue: string): (value: string)
    ensures OsGetenv(env, key) == "" ==> value == defaultValue
    ensures OsGetenv(env, key) != "" ==> value == OsGetenv(env, key)
    ensures value == "" ==> defaultValue == ""
  {
    var value := OsGetenv(env, key);
    if value == "" then defaultValue else value
  }

  /** The variable that `LoadConfig` splits into the alert recipients. */
  function AlertEmailsSource(env: map<string, string>): string
  {
    GetEnv(env, "ALERT_EMAILS", DefaultAlertEmails)
  }

  /** `LoadConfig`: every setting from its variable, the alert recipients split at commas. */
  function LoadConfig(env: map<string, string>): Config
  {
    var alertEmails := Split(AlertEmailsSource(env), ',');
    Config(
      GetEnv(env, "AWS_REGION", DefaultRegion),
      GetEnv(env, "TO_EMAIL", DefaultToEmail),
      GetEnv(env, "FROM_EMAIL", DefaultFromEmail),
      alertEmails)
  }

  /**
   * The alert recipients are the comma-separated entries of their variable:
   * one more entry than there are commas, none holding a comma, and joined
   * with commas they give the variable back.
   */
  lemma LoadConfigAlertEmails(env: map<string, string>)
    ensures var source, alertEmails := AlertEmailsSource(env), LoadConfig(env).alertEmails;
      && |alertEmails| == Count(source, ',') + 1
      && (forall i :: 0 <= i < |alertEmails| ==> ',' !in alertEmails[i])
      && Join(alertEmails, ',') == source
  {
    SplitPieces(AlertEmailsSource(env), ',');
    JoinSplit(AlertEmailsSource(env), ',');
  }

  /** Unset or empty variables give the documented defaults, and a single alert recipient. */
  lemma LoadConfigDefaults(env: map<string, string>)
    requires OsGetenv(env, "AWS_REGION") == "" && OsGetenv(env, "TO_EMAIL") == ""
    requires OsGetenv(env, "FROM_EMAIL") == "" && OsGetenv(env, "ALERT_EMAILS") == ""
    ensures LoadConfig(env) == Config("us-east-1", "admin@example.com", "contact@example.com", ["admin@example.com"])
  {
    assert ',' !in DefaultAlertEmails;
    SplitWithoutSeparator(DefaultAlertEmails, ',');
  }

  /** A comma-separated recipient list is split back into exactly its comma-free entries. */
  lemma LoadConfigAlertList(env: map<string, string>, recipients: seq<string>)
    requires |recipients| >= 1
    requires forall i :: 0 <= i < |recipients| ==> ',' !in recipients[i]
    requires OsGetenv(env, "ALERT_EMAILS") == Join(recipients, ',')
    requires OsGetenv(env, "ALERT_EMAILS") != ""
    ensures LoadConfig(env).alertEmails == recipients
  {
    SplitJoin(recipients, ',');
  }

  /** Every setting is non-empty, and there is always at least one alert recipient. */
  lemma LoadConfigNonEmpty(env: map<string, string>)
    ensures var cfg := LoadConfig(env);
      cfg.region != "" && cfg.toEmail != "" && cfg.fromEmail != "" && |cfg.alertEmails| >= 1
  {
  }
}

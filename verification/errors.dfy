/**
 * The application error taxonomy: database, provider and configuration
 * errors, their `Display` texts and the `From` conversions between them.
 */
module Errors {
  import opened Strings

  datatype DatabaseError =
    | Connection(connMsg: string)
    | Migration(migrationMsg: string)
    | Query(operation: string, details: string)
    | NotFound(nfEntity: string, nfId: string)
    | Duplicate(dupEntity: string, dupId: string)

  datatype ProviderError =
    | Unsupported(unsupported: string)
    | InvalidApiKey(keyProvider: string, reason: string)
    | MessageFailed(sendProvider: string, sendDetails: string)
    | RateLimited(limitedProvider: string)
    | Configuration(configProvider: string, configDetails: string)

  datatype ConfigError =
    | LoadFailed(loadPath: string, loadReason: string)
    | SaveFailed(savePath: string, saveReason: string)
    | InvalidValue(setting: string, valueReason: string)

  datatype AppError =
    | Database(db: DatabaseError)
    | Provider(provider: ProviderError)
    | Config(config: ConfigError)
    | Generic(msg: string)

  /** `Display for DatabaseError`. */
  function DatabaseErrorText(e: DatabaseError): string
  {
    match e
    case Connection(m) => "Failed to connect to database: " + m
    case Migration(m) => "Database migration failed: " + m
    case Query(op, d) => "Database " + op + " failed: " + d
    case NotFound(entity, id) => entity + " with id '" + id + "' not found"
    case Duplicate(entity, id) => entity + " with id '" + id + "' already exists"
  }

  /** `Display for ProviderError`. */
  function ProviderErrorText(e: ProviderError): string
  {
    match e
    case Unsupported(p) => "Unsupported provider: " + p
    case InvalidApiKey(p, reason) => "Invalid API key for " + p + ": " + reason
    case MessageFailed(p, d) => "Failed to send message to " + p + ": " + d
    case RateLimited(p) => "Rate limited by " + p
    case Configuration(p, d) => "Configuration error for " + p + ": " + d
  }

  /** `Display for ConfigError`. */
  function ConfigErrorText(e: ConfigError): string
  {
    match e
    case LoadFailed(path, reason) => "Failed to load settings from '" + path + "': " + reason
    case SaveFailed(path, reason) => "Failed to save settings to '" + path + "': " + reason
    case InvalidValue(setting, reason) => "Invalid value for '" + setting + "': " + reason
  }

  /** `Display for AppError`. */
  function AppErrorText(e: AppError): string
  {
    match e
    case Database(d) => "Database error: " + DatabaseErrorText(d)
    case Provider(p) => "Provider error: " + ProviderErrorText(p)
    case Config(c) => "Configuration error: " + ConfigErrorText(c)
    case Generic(m) => m
  }

  /** `From<DatabaseError> for AppError`. */
  function FromDatabaseError(e: DatabaseError): AppError { Database(e) }

  /** `From<ProviderError> for AppError`. */
  function FromProviderError(e: ProviderError): AppError { Provider(e) }

  /** `From<ConfigError> for AppError`. */
  function FromConfigError(e: ConfigError): AppError { Config(e) }

  /** `From<String> for AppError` and `From<&str> for AppError` (the same on `seq<char>`). */
  function FromString(s: string): AppError { Generic(s) }

  /** `From<sqlx::Error> for DatabaseError`, given the sqlx error's own text. */
  function FromSqlxError(sqlxText: string): DatabaseError
  {
    Query("query", sqlxText)
  }

  /** `From<AppError> for String`: the error's `Display` text. */
  function AppErrorToString(e: AppError): string
  {
    AppErrorText(e)
  }

  /**
   * Each wrapping `From` conversion yields the variant whose display is the
   * matching fixed prefix followed by the wrapped error's display.
   */
  lemma WrappedDisplays(d: DatabaseError, p: ProviderError, c: ConfigError)
    ensures AppErrorToString(FromDatabaseError(d)) == "Database error: " + DatabaseErrorText(d)
    ensures AppErrorToString(FromProviderError(p)) == "Provider error: " + ProviderErrorText(p)
    ensures AppErrorToString(FromConfigError(c)) == "Configuration error: " + ConfigErrorText(c)
    ensures StartsWith(AppErrorText(FromDatabaseError(d)), "Database error: ")
    ensures StartsWith(AppErrorText(FromProviderError(p)), "Provider error: ")
    ensures StartsWith(AppErrorText(FromConfigError(c)), "Configuration error: ")
  {
  }

  /** A string turned into an `AppError` and back into a string is unchanged. */
  lemma StringRoundTrip(s: string)
    ensures AppErrorToString(FromString(s)) == s
  {
  }

  /** A sqlx error surfaces as a failed "query" operation carrying the sqlx text. */
  lemma SqlxErrorDisplay(sqlxText: string)
    ensures DatabaseErrorText(FromSqlxError(sqlxText)) == "Database query failed: " + sqlxText
    ensures AppErrorText(FromDatabaseError(FromSqlxError(sqlxText)))
            == "Database error: Database query failed: " + sqlxText
  {
    var display := DatabaseErrorText(FromSqlxError(sqlxText));
    assert "Database " + "query" + " failed: " == "Database query failed: ";
    assert display == "Database query failed: " + sqlxText;
    assert "Database error: " + "Database query failed: " == "Database error: Database query failed: ";
    Assoc("Database error: ", "Database query failed: ", sqlxText);
  }

  /**
   * "Not found" and "already exists" can never be confused: whatever the entity
   * and id texts, the two displays differ (they end differently).
   */
  lemma {:induction false} NotFoundIsNotDuplicate(e1: string, id1: string, e2: string, id2: string)
    ensures DatabaseErrorText(NotFound(e1, id1)) != DatabaseErrorText(Duplicate(e2, id2))
  {
    var a := DatabaseErrorText(NotFound(e1, id1));
    var b := DatabaseErrorText(Duplicate(e2, id2));
    assert EndsWith(a, "' not found");
    assert EndsWith(b, "' already exists");
    assert a[|a| - 1] == 'd' && b[|b| - 1] == 's';
  }

  /** A provider error's display tells which variant it came from. */
  lemma {:induction false} ProviderDisplayIdentifiesVariant(e1: ProviderError, e2: ProviderError)
    requires ProviderErrorText(e1) == ProviderErrorText(e2)
    ensures e1.Unsupported? == e2.Unsupported?
    ensures e1.InvalidApiKey? == e2.InvalidApiKey?
    ensures e1.MessageFailed? == e2.MessageFailed?
    ensures e1.RateLimited? == e2.RateLimited?
    ensures e1.Configuration? == e2.Configuration?
  {
    var t := ProviderErrorText(e1);
    // The five displays start with five different letters: U, I, F, R, C.
    assert e1.Unsupported? || e2.Unsupported? ==> t[0] == 'U' ==> e1.Unsupported? && e2.Unsupported?;
    assert e1.InvalidApiKey? || e2.InvalidApiKey? ==> t[0] == 'I' ==> e1.InvalidApiKey? && e2.InvalidApiKey?;
    assert e1.MessageFailed? || e2.MessageFailed? ==> t[0] == 'F' ==> e1.MessageFailed? && e2.MessageFailed?;
    assert e1.RateLimited? || e2.RateLimited? ==> t[0] == 'R' ==> e1.RateLimited? && e2.RateLimited?;
  }

  /** A configuration error's display tells which variant it came from. */
  lemma {:induction false} ConfigDisplayIdentifiesVariant(e1: ConfigError, e2: ConfigError)
    requires ConfigErrorText(e1) == ConfigErrorText(e2)
    ensures e1.LoadFailed? == e2.LoadFailed?
    ensures e1.SaveFailed? == e2.SaveFailed?
    ensures e1.InvalidValue? == e2.InvalidValue?
  {
    var t := ConfigErrorText(e1);
    // "Invalid ..." starts with 'I'; "Failed to load" and "Failed to save" differ at index 10.
    assert e1.InvalidValue? || e2.InvalidValue? ==> t[0] == 'I' ==> e1.InvalidValue? && e2.InvalidValue?;
    assert e1.LoadFailed? || e2.LoadFailed? ==> t[0] == 'F' ==> t[10] == 'l' ==> e1.LoadFailed? && e2.LoadFailed?;
  }

  /** A `Generic` error can carry any display text, including another variant's. */
  lemma GenericImpersonates(e: AppError)
    ensures AppErrorText(FromString(AppErrorText(e))) == AppErrorText(e)
  {
  }
}

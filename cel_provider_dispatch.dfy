/** Selection of the CEL-to-SQL provider from the database dialect name and
    the Doris flag. Providers are modelled as tags carrying the arguments
    they are constructed with; the Doris provider is a subclass of the MySQL
    provider and adds nothing to it. */
module CelToSqlDispatch {

  import opened Wrappers

  datatype ProviderKind = SqliteProvider | MySqlProvider | DorisProvider | PostgreSqlProvider

  /** Python's isinstance over the provider classes: every class is an
      instance of itself, and a Doris provider is also a MySQL provider. */
  predicate IsInstance(kind: ProviderKind, cls: ProviderKind) {
    kind == cls || (kind == DorisProvider && cls == MySqlProvider)
  }

  /** A provider built with the engine's dialect and the properties metadata. */
  datatype Provider<M> = Provider(kind: ProviderKind, engineDialect: string, metadata: M)

  datatype DispatchError = ValueError(message: string)

  const SupportedDialects: set<string> := {"sqlite", "mysql", "postgresql"}

  const UnsupportedPrefix := "Unsupported dialect: "

  /** The dispatch table. `dialectName` is the argument being matched;
      `engineDialect` is the dialect of the configured engine, which every
      provider is built with and which the error message names; `isDoris` is
      the Doris flag read from the environment. */
  function ProviderForDialect<M>(dialectName: string, engineDialect: string, isDoris: bool, metadata: M)
    : (r: Result<Provider<M>, DispatchError>)
    ensures r.Success? <==> dialectName in SupportedDialects
    ensures r.Success? ==> r.value.engineDialect == engineDialect && r.value.metadata == metadata
    ensures r.Failure? ==> r.error.message == UnsupportedPrefix + engineDialect
    ensures r.Success? && dialectName == "mysql" ==> IsInstance(r.value.kind, MySqlProvider)
    ensures r.Success? && r.value.kind == DorisProvider ==> isDoris
  {
    if dialectName == "sqlite" then
      Success(Provider(SqliteProvider, engineDialect, metadata))
    else if dialectName == "mysql" then
      if isDoris then Success(Provider(DorisProvider, engineDialect, metadata))
      else Success(Provider(MySqlProvider, engineDialect, metadata))
    else if dialectName == "postgresql" then
      Success(Provider(PostgreSqlProvider, engineDialect, metadata))
    else
      Failure(ValueError(UnsupportedPrefix + engineDialect))
  }

  /** The provider for the configured engine: the dispatch table applied to
      the engine's own dialect name, so that an error names exactly the
      dialect that was rejected. */
  function CelToSqlProvider<M>(engineDialect: string, isDoris: bool, metadata: M)
    : (r: Result<Provider<M>, DispatchError>)
    ensures r.Success? <==> engineDialect in SupportedDialects
    ensures r.Failure? ==> r.error.message == UnsupportedPrefix + engineDialect
  {
    ProviderForDialect(engineDialect, engineDialect, isDoris, metadata)
  }

  /** Each supported dialect yields the provider of its own kind: "sqlite"
      the SQLite provider whatever the flag, "postgresql" the PostgreSQL
      provider, "mysql" the Doris provider with the flag set and the MySQL
      provider without it. */
  lemma DispatchTable<M>(engineDialect: string, isDoris: bool, metadata: M)
    ensures ProviderForDialect("sqlite", engineDialect, isDoris, metadata) == Success(Provider(SqliteProvider, engineDialect, metadata))
    ensures ProviderForDialect("postgresql", engineDialect, isDoris, metadata) == Success(Provider(PostgreSqlProvider, engineDialect, metadata))
    ensures ProviderForDialect("mysql", engineDialect, true, metadata) == Success(Provider(DorisProvider, engineDialect, metadata))
    ensures ProviderForDialect("mysql", engineDialect, false, metadata) == Success(Provider(MySqlProvider, engineDialect, metadata))
  {
  }

  /** With the flag set, "mysql" gives a Doris provider, which is also an
      instance of the MySQL provider class. */
  lemma MySqlWithDorisFlag<M>(engineDialect: string, metadata: M)
    ensures var r := ProviderForDialect("mysql", engineDialect, true, metadata);
      r.Success? && IsInstance(r.value.kind, DorisProvider) && IsInstance(r.value.kind, MySqlProvider)
  {
  }

  /** With the flag clear, "mysql" gives a plain MySQL provider, not a Doris one. */
  lemma MySqlWithoutDorisFlag<M>(engineDialect: string, metadata: M)
    ensures var r := ProviderForDialect("mysql", engineDialect, false, metadata);
      r.Success? && IsInstance(r.value.kind, MySqlProvider) && !IsInstance(r.value.kind, DorisProvider)
  {
  }

  /** The match is exact and case-sensitive: "MySQL" is rejected. */
  lemma DialectMatchIsCaseSensitive<M>(engineDialect: string, isDoris: bool, metadata: M)
    ensures ProviderForDialect("MySQL", engineDialect, isDoris, metadata).Failure?
  {
  }

  /** The flag is consulted only for "mysql": for every other dialect name the
      result does not depend on it. */
  lemma DorisFlagOnlyAffectsMySql<M>(dialectName: string, engineDialect: string, metadata: M)
    requires dialectName != "mysql"
    ensures ProviderForDialect(dialectName, engineDialect, true, metadata)
         == ProviderForDialect(dialectName, engineDialect, false, metadata)
  {
  }

  /** The error message names the engine's dialect, not the rejected argument,
      so it can name a dialect other than the one rejected. */
  lemma ErrorNamesEngineDialect<M>(isDoris: bool, metadata: M)
    ensures var r := ProviderForDialect("oracle", "mysql", isDoris, metadata);
      r.Failure? && r.error.message == "Unsupported dialect: mysql"
  {
  }
}

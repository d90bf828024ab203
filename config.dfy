/** The configuration record of one database instance (internal/config/config.go).
    Reading and writing the YAML file is not part of this model. */
module Config {

  /** One named entry of the configuration file. `protected` marks an entry that
      must never be overwritten by a transfer. */
  datatype Source = Source(
    name: string,
    host: string,
    port: int,
    user: string,
    password: string,
    dbName: string,
    sslMode: string,
    protected: bool)

  /** The single entry written to a freshly created configuration file. */
  const ExampleSource := Source("example", "127.0.0.1", 5432, "postgres", "postgres", "app_db", "disable", true)

  /** The entry list of a freshly created configuration file. */
  function DefaultSources(): (sources: seq<Source>)
    ensures |sources| == 1
    ensures forall s :: s in sources ==> s.protected
  {
    [ExampleSource]
  }
}

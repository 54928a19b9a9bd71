/** `HiveConfig`: the connection settings every reader and writer holds. */
module HiveSettings {
  import opened Results

  newtype u16 = x: int | 0 <= x < 0x1_0000

  datatype HiveConfig = HiveConfig(host: string, port: u16, username: string, database: string, auth: string)

  /** `HiveConfig::new`: every field not given takes its default. */
  function NewHiveConfig(host: Option<string>, port: Option<u16>, username: Option<string>,
                         database: Option<string>, auth: Option<string>): (c: HiveConfig)
    ensures host.Some? ==> c.host == host.value
    ensures port.Some? ==> c.port == port.value
    ensures username.Some? ==> c.username == username.value
    ensures database.Some? ==> c.database == database.value
    ensures auth.Some? ==> c.auth == auth.value
  {
    HiveConfig(host.GetOr("localhost"), port.GetOr(10000), username.GetOr("default"),
               database.GetOr("default"), auth.GetOr("NONE"))
  }

  /** `create_default_config`: `HiveConfig::new` with nothing given. */
  function DefaultHiveConfig(): HiveConfig {
    NewHiveConfig(None, None, None, None, None)
  }

  /** The defaults: localhost:10000, user and database `default`, no authentication. */
  lemma DefaultValues()
    ensures DefaultHiveConfig() == HiveConfig("localhost", 10000, "default", "default", "NONE")
  {
  }

  /** Giving a field only changes that field of the default configuration. */
  lemma GivenFieldOnly(host: string, port: u16)
    ensures NewHiveConfig(Some(host), None, None, None, None) == DefaultHiveConfig().(host := host)
    ensures NewHiveConfig(None, Some(port), None, None, None) == DefaultHiveConfig().(port := port)
  {
  }
}

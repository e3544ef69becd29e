/** The settings record read from the environment (pydantic-settings), as plain constants. */
module Config {

  datatype Settings = Settings(
    databaseUrl: string,
    fbAppId: string,
    fbApiKey: string,
    fbProjectId: string,
    apiBase: string,
    authUrl: string,
    encKey: string,
    encIv: string,
    userKey: string,
    passKey: string,
    apiUsername: string,
    apiPassword: string,
    appVersion: string)

  /** The default of `database_url` when the environment does not set it. */
  const DefaultDatabaseUrl: string := "sqlite:///./data.db"
}

/** What the team and game MCP servers share: the PostgreSQL database they
    reach through the connection string in the environment. */
module AgentDb {
  import opened PyRuntime

  const ENV_DB_CONNECTION_STRING := "DB_CONNECTION_STRING"

  const MISSING_CONNECTION_STRING :=
    ValueError("Database Connection String is a required environment variable.  DB_CONNECTION_STRING not set.")

  /** A row as the cursor yields it: column values by position. */
  type Row = seq<Value>

  /** The database: given the connection string and the SQL text, the rows
      the cursor yields, in order. */
  type Database<R> = (string, string) -> seq<R>

  /** The connection string, or the error raised when it is not configured. */
  function ConnectionString(env: Env): Result<string>
  {
    if ENV_DB_CONNECTION_STRING in env then Success(env[ENV_DB_CONNECTION_STRING])
    else Failure(MISSING_CONNECTION_STRING)
  }
}

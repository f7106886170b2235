/** Application configuration read from the environment (configs/config.go). */
module Configs {

  /** The process environment; a variable that is absent reads as "". */
  type Env = map<string, string>

  datatype Config = Config(
    jwtSecret: string,
    jwtExpirationHours: int,
    databaseUrl: string,
    allowedOrigins: string,
    port: string)

  const DefaultPort := "8080"
  const DefaultJwtSecret := "maiscrianca_secret_key"
  const JwtExpirationHours := 24

  /** os.Getenv: the value of the variable, or "" when it is unset. */
  function Getenv(env: Env, key: string): string
  {
    if key in env then env[key] else ""
  }

  /** LoadConfig: PORT and JWT_SECRET fall back to defaults when empty, the token
      lifetime is fixed, and the other two variables are copied as they are. */
  function LoadConfig(env: Env): (c: Config)
    ensures c.port != "" && c.jwtSecret != ""
    ensures Getenv(env, "PORT") != "" ==> c.port == env["PORT"]
    ensures Getenv(env, "PORT") == "" ==> c.port == DefaultPort
    ensures Getenv(env, "JWT_SECRET") != "" ==> c.jwtSecret == env["JWT_SECRET"]
    ensures Getenv(env, "JWT_SECRET") == "" ==> c.jwtSecret == DefaultJwtSecret
    ensures c.jwtExpirationHours == 24
    ensures c.databaseUrl == Getenv(env, "DATABASE_URL")
    ensures c.allowedOrigins == Getenv(env, "ALLOWED_ORIGINS")
  {
    var port := Getenv(env, "PORT");
    var secret := Getenv(env, "JWT_SECRET");
    Config(
      if secret == "" then DefaultJwtSecret else secret,
      JwtExpirationHours,
      Getenv(env, "DATABASE_URL"),
      Getenv(env, "ALLOWED_ORIGINS"),
      if port == "" then DefaultPort else port)
  }

  /** Two environments that differ in nothing LoadConfig reads give the same
      configuration; the lifetime is the same whatever the environment. */
  lemma LoadConfigReadsFourVariables(e1: Env, e2: Env)
    requires forall k :: k in {"PORT", "JWT_SECRET", "DATABASE_URL", "ALLOWED_ORIGINS"} ==> Getenv(e1, k) == Getenv(e2, k)
    ensures LoadConfig(e1) == LoadConfig(e2)
    ensures LoadConfig(e1).jwtExpirationHours == LoadConfig(e2).jwtExpirationHours
  {
    assert Getenv(e1, "PORT") == Getenv(e2, "PORT");
    assert Getenv(e1, "JWT_SECRET") == Getenv(e2, "JWT_SECRET");
    assert Getenv(e1, "DATABASE_URL") == Getenv(e2, "DATABASE_URL");
    assert Getenv(e1, "ALLOWED_ORIGINS") == Getenv(e2, "ALLOWED_ORIGINS");
  }
}

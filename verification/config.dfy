/** The configuration values the core reads (models/config.go). */
module Config {

  datatype EnvConfig = EnvConfig(
    useRedis: bool,
    jwtAccessExpirationMinutes: int,
    jwtRefreshExpirationDays: int)
}

/**
 * The configuration object the setup script writes and the monitor reads:
 * a Telegram target, a list of SSH hosts and the monitoring schedule.
 */
module Settings {

  /** One monitored host, as entered at setup. */
  datatype Server = Server(name: string, host: string, port: int, username: string, password: string)

  /** The notification target. */
  datatype Telegram = Telegram(botToken: string, chatId: string)

  /** The polling interval in minutes and the zone report times are given in. */
  datatype Monitoring = Monitoring(intervalMinutes: nat, timezone: string)

  /** The whole configuration: exactly a telegram, a servers and a monitoring part. */
  datatype Config = Config(telegram: Telegram, servers: seq<Server>, monitoring: Monitoring)

  /** The only zone the setup script ever writes. */
  const Timezone: string := "Asia/Tehran"

  /** `all([name, host, username, password])`: every field the setup script insists on is non-empty. */
  predicate AllGiven(name: string, host: string, username: string, password: string) {
    name != [] && host != [] && username != [] && password != []
  }

  /** A server whose required fields are all given. */
  predicate Complete(s: Server) {
    AllGiven(s.name, s.host, s.username, s.password)
  }
}

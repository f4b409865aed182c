/** Inputs the plugin receives from its host: the configured admin list and
    the session fields the command handlers and the message listener read.
    The chat connection itself is not modelled; only these values are. */
module Plugin {

  /** The one platform the plugin serves; every handler compares the
      session's platform against it. */
  const Platform: string := "iirose"

  /** Startup configuration: user ids allowed to use the subscription
      commands. It does not change while the plugin runs. */
  datatype Config = Config(adminList: seq<string>)

  /** The session of a `iirose.sub.on` / `iirose.sub.off` invocation. */
  datatype CommandSession = CommandSession(platform: string, userId: string, username: string)

  /** An inbound chat message as the listener sees it. */
  datatype Message = Message(
    platform: string,
    channelId: string,
    userId: string,
    username: string,
    content: string)

  /** JavaScript's `String.prototype.startsWith`. Dafny strings hold Unicode
      scalar values rather than UTF-16 code units; for the ASCII prefixes the
      plugin tests (`public`, `private`) the two agree. */
  predicate StartsWith(s: string, prefix: string) {
    |prefix| <= |s| && s[..|prefix|] == prefix
  }

  /** A caller passes both gates of a command: right platform, listed admin. */
  predicate Admitted(session: CommandSession, config: Config) {
    session.platform == Platform && session.userId in config.adminList
  }
}

/** How the commands and the listener interact: what a toggle changes about
    which destinations a later message reaches. */
module Lifecycle {
  import opened Plugin
  import opened Table
  import opened Commands
  import opened Router

  /** After an admitted `sub.on`, the caller's private channel gets every
      message posted in the public room. */
  lemma SubscribeThenReceive(session: CommandSession, config: Config, store: Store, msg: Message)
    requires Admitted(session, config)
    requires msg.platform == Platform && IsPublicChannel(msg.channelId)
    ensures Receives(Toggle(session, config, store, true).store, msg, Private(session.userId))
  {
  }

  /** After an admitted `sub.on`, what the caller writes in a private channel
      reaches the public room and, as the code does not exclude the sender,
      the caller's own private channel too. */
  lemma SubscribeThenRelayOwnLines(session: CommandSession, config: Config, store: Store, msg: Message)
    requires Admitted(session, config)
    requires msg.platform == Platform && IsPrivateChannel(msg.channelId) && msg.userId == session.userId
    ensures var after := Toggle(session, config, store, true).store;
            Receives(after, msg, Public) && Receives(after, msg, Private(session.userId))
  {
  }

  /** After an admitted `sub.off`, the caller's private channel gets nothing,
      and nothing the caller writes is relayed anywhere. */
  lemma UnsubscribeSilences(session: CommandSession, config: Config, store: Store)
    requires Admitted(session, config)
    ensures var after := Toggle(session, config, store, false).store;
            forall msg :: !Receives(after, msg, Private(session.userId))
    ensures var after := Toggle(session, config, store, false).store;
            forall msg: Message, d: Destination | msg.userId == session.userId && !IsPublicChannel(msg.channelId) ::
              !Receives(after, msg, d)
  {
  }

  /** A toggle by one user changes no other user's relaying, whatever the
      gates decided. */
  lemma ToggleLeavesOthersRelaying(session: CommandSession, config: Config, store: Store, target: bool, msg: Message)
    requires msg.userId != session.userId
    ensures var after := Toggle(session, config, store, target).store;
            forall u | u != session.userId :: Receives(after, msg, Private(u)) == Receives(store, msg, Private(u))
    ensures var after := Toggle(session, config, store, target).store;
            Receives(after, msg, Public) == Receives(store, msg, Public)
  {
  }

  /** The end-to-end run: admin `u1` turns relaying on, `u2` says "hello" in
      the room and `u1` gets it privately; `u1` answers "hi" privately and the
      room gets it. */
  lemma EndToEnd()
    ensures var config := Config(["u1"]);
            var o := Toggle(CommandSession(Platform, "u1", "U1"), config, map[], true);
            && o.reply == SetSubscribed("U1")
            && o.store == map["u1" := true]
            && Receives(o.store, Message(Platform, "public", "u2", "U2", "hello"), Private("u1"))
            && !Receives(o.store, Message(Platform, "public", "u2", "U2", "hello"), Private("u2"))
            && Receives(o.store, Message(Platform, "private", "u1", "U1", "hi"), Public)
  {
  }
}

/** The `iirose.sub.on` and `iirose.sub.off` commands. The two handlers are
    mirror images of each other and are modelled as one read-modify-write
    `Toggle` whose `target` is the status the command asks for. */
module Commands {
  import opened Plugin
  import opened Table

  /** The kinds of text reply a command can give. The confirmations carry the
      caller's display name; the wording of each reply is not modelled. */
  datatype Reply =
    | UnsupportedPlatform
    | NoPermission
    | AlreadySubscribed
    | AlreadyUnsubscribed
    | SetSubscribed(username: string)
    | SetUnsubscribed(username: string)

  /** The "nothing to do" reply for a command asking for `target`. */
  function Already(target: bool): Reply {
    if target then AlreadySubscribed else AlreadyUnsubscribed
  }

  /** The confirmation for a command asking for `target`. */
  function Confirmation(target: bool, username: string): Reply {
    if target then SetSubscribed(username) else SetUnsubscribed(username)
  }

  /** The reply the command returns and the table after it ran. */
  datatype Outcome = Outcome(reply: Reply, store: Store)

  /** One command invocation: `target` is true for `sub.on`, false for
      `sub.off`. */
  function Toggle(session: CommandSession, config: Config, store: Store, target: bool): (o: Outcome)
    // the platform gate comes first and changes nothing
    ensures session.platform != Platform ==> o == Outcome(UnsupportedPlatform, store)
    // then the admin gate, which changes nothing either
    ensures session.platform == Platform && session.userId !in config.adminList ==>
              o == Outcome(NoPermission, store)
    // a record already holding the target: a notice, no write
    ensures Admitted(session, config) && session.userId in store && store[session.userId] == target ==>
              o == Outcome(Already(target), store)
    // otherwise the caller's record holds the target afterwards, existing or not before
    ensures Admitted(session, config) && !(session.userId in store && store[session.userId] == target) ==>
              && o.reply == Confirmation(target, session.username)
              && Subscription(session.userId, target) in Records(o.store)
    // frame: no other uid gains, loses or changes a record
    ensures forall u :: u != session.userId ==> (u in o.store <==> u in store)
    ensures forall u :: u != session.userId && u in store ==> o.store[u] == store[u]
    // records are never deleted
    ensures store.Keys <= o.store.Keys <= store.Keys + {session.userId}
  {
    if session.platform != Platform then
      Outcome(UnsupportedPlatform, store)
    else if session.userId !in config.adminList then
      Outcome(NoPermission, store)
    else
      var userData := Get(store, session.userId);
      if |userData| > 0 && userData[0].status == target then
        Outcome(Already(target), store)
      else if |userData| > 0 then
        Outcome(Confirmation(target, session.username), Update(store, session.userId, target))
      else
        Outcome(Confirmation(target, session.username), Create(store, Subscription(session.userId, target)))
  }

  /** Repeating an admitted command is a no-op: the second run replies with
      the "already" notice and leaves the table as the first run left it. */
  lemma ToggleIdempotent(session: CommandSession, config: Config, store: Store, target: bool)
    requires Admitted(session, config)
    ensures var first := Toggle(session, config, store, target);
            Toggle(session, config, first.store, target) == Outcome(Already(target), first.store)
  {
  }

  /** An admitted command moves exactly the caller into or out of the
      subscriber set. */
  lemma ToggleSubscribers(session: CommandSession, config: Config, store: Store, target: bool)
    requires Admitted(session, config)
    ensures var after := Subscribers(Toggle(session, config, store, target).store);
            after == if target then Subscribers(store) + {session.userId}
                     else Subscribers(store) - {session.userId}
  {
  }

  /** `sub.on` by an admin who has no record yet creates exactly one record,
      with status true, and confirms with the caller's name. */
  lemma FirstSubscribeCreatesRecord(session: CommandSession, config: Config, store: Store)
    requires Admitted(session, config) && session.userId !in store
    ensures var o := Toggle(session, config, store, true);
            && o.reply == SetSubscribed(session.username)
            && Records(o.store) == Records(store) + {Subscription(session.userId, true)}
            && |o.store| == |store| + 1
  {
  }

  /** A missing record does not count as "off": `sub.off` by an admin who has
      no record creates one with status false and confirms instead of giving
      the "already" notice. */
  lemma UnsubscribeWithoutRecordCreates(session: CommandSession, config: Config, store: Store)
    requires Admitted(session, config) && session.userId !in store
    ensures var o := Toggle(session, config, store, false);
            && o.reply == SetUnsubscribed(session.username)
            && o.store == store[session.userId := false]
  {
  }

  /** `sub.on` followed by `sub.off` leaves the caller with a record whose
      status is false and every other record as it was. */
  lemma OnThenOff(session: CommandSession, config: Config, store: Store)
    requires Admitted(session, config)
    ensures var on := Toggle(session, config, store, true);
            var off := Toggle(session, config, on.store, false);
            && off.reply == SetUnsubscribed(session.username)
            && off.store == store[session.userId := false]
  {
  }
}

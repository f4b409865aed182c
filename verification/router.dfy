/** The `message` listener: every inbound message on the served platform is
    relayed between the public room and the private channels of subscribers.
    The listener only reads the table; its effect is the list of messages it
    asks the bot to send, which `Route` returns instead of sending them. */
module Router {
  import opened Plugin
  import opened Table

  /** Where the bot sends a relayed line. */
  datatype Destination = Public | Private(uid: string)

  /** The destination string handed to `sendMessage`. */
  function Address(d: Destination): string {
    match d
    case Public => "public"
    case Private(u) => "private:" + u
  }

  /** One `sendMessage` call. */
  datatype Send = Send(destination: Destination, text: string)

  /** The relayed line: the sender's name in the platform's mention markup,
      a full-width colon, then the message. */
  function Line(username: string, content: string): string {
    " [*" + username + "*] \U{FF1A} " + content
  }

  /** The relayed line can be read back: when neither name contains the
      closing mention markup `*]`, a name and a message yield the same line
      only as themselves. A name that does contain it can make two different
      (name, message) pairs print alike. */
  lemma LineCarriesSenderAndContent(n1: string, c1: string, n2: string, c2: string)
    requires !HasMarkupEnd(n1) && !HasMarkupEnd(n2)
    ensures Line(n1, c1) == Line(n2, c2) <==> n1 == n2 && c1 == c2
  {
    if Line(n1, c1) == Line(n2, c2) {
      var l := Line(n1, c1);
      LineLayout(n1, c1);
      LineLayout(n2, c2);
      if |n1| < |n2| {
        assert false;
      } else if |n2| < |n1| {
        assert false;
      }
      assert n1 == l[3..3 + |n1|] == n2;
      assert c1 == l[8 + |n1|..] == c2;
    }
  }

  /** Where the name and the markup sit in a relayed line. */
  lemma LineLayout(n: string, c: string)
    ensures |Line(n, c)| == 8 + |n| + |c|
    ensures Line(n, c)[3 + |n|] == '*' && Line(n, c)[4 + |n|] == ']'
    ensures forall i :: 0 <= i < |n| ==> Line(n, c)[3 + i] == n[i]
  {
  }

  /** Does `s` contain the closing mention markup `*]`? */
  predicate HasMarkupEnd(s: string) {
    exists i :: 0 <= i < |s| - 1 && s[i] == '*' && s[i + 1] == ']'
  }

  predicate IsPublicChannel(channelId: string) {
    StartsWith(channelId, "public")
  }

  predicate IsPrivateChannel(channelId: string) {
    StartsWith(channelId, "private")
  }

  /** Reference definition of relaying: does destination `d` get `msg`?
      A private channel gets it when its owner is subscribed and the message
      came from the public room or from a subscriber's private channel; the
      public room gets it when it came from a subscriber's private channel. */
  predicate Receives(store: Store, msg: Message, d: Destination) {
    && msg.platform == Platform
    && match d
       case Public =>
         IsPrivateChannel(msg.channelId) && Subscribed(store, msg.userId)
       case Private(u) =>
         && Subscribed(store, u)
         && (IsPublicChannel(msg.channelId)
             || (IsPrivateChannel(msg.channelId) && Subscribed(store, msg.userId)))
  }

  /** Distinct destinations have distinct address strings, so the bot can
      never confuse the public room with a user or one user with another. */
  lemma AddressInjective(a: Destination, b: Destination)
    ensures Address(a) == Address(b) <==> a == b
  {
    match (a, b)
    case (Private(u), Private(v)) =>
      assert Address(a)[8..] == u && Address(b)[8..] == v;
    case (Public, Private(_)) =>
      assert |Address(a)| < |Address(b)|;
    case (Private(_), Public) =>
      assert |Address(b)| < |Address(a)|;
    case (Public, Public) =>
  }

  /** A channel id cannot start with both prefixes, so the order in which
      the listener tests them does not matter. */
  lemma ChannelKindsExclusive(channelId: string)
    ensures !(IsPublicChannel(channelId) && IsPrivateChannel(channelId))
  {
    if IsPublicChannel(channelId) {
      assert channelId[..6][1] == 'u';
      assert channelId[1] != "private"[1];
    }
  }

  /** One relayed line to the private channel of each uid, in list order. */
  function FanOut(uids: seq<string>, text: string): (sends: seq<Send>)
    requires NoDuplicates(uids)
    ensures NoDuplicates(sends)
    ensures forall d :: Send(d, text) in sends <==> d.Private? && d.uid in uids
    ensures forall s :: s in sends ==> s.text == text
    ensures |sends| == |uids|
    ensures forall i :: 0 <= i < |uids| ==> sends[i] == Send(Private(uids[i]), text)
  {
    var sends := seq(|uids|, i requires 0 <= i < |uids| => Send(Private(uids[i]), text));
    assert forall i :: 0 <= i < |uids| ==> sends[i] == Send(Private(uids[i]), text);
    sends
  }

  /** Handles one inbound message and returns the sends it makes, in the
      order they are issued. */
  method Route(msg: Message, store: Store) returns (sends: seq<Send>)
    // the sends are exactly the reference relay, each destination once
    ensures NoDuplicates(sends)
    ensures forall s :: s in sends ==> s.text == Line(msg.username, msg.content)
    ensures forall d :: Send(d, Line(msg.username, msg.content)) in sends <==> Receives(store, msg, d)
    // other platforms and other channels: nothing
    ensures msg.platform != Platform ==> sends == []
    ensures !IsPublicChannel(msg.channelId) && !IsPrivateChannel(msg.channelId) ==> sends == []
    // public room: one line to each subscriber, none back to the room
    ensures msg.platform == Platform && IsPublicChannel(msg.channelId) ==>
              && |sends| == |Subscribers(store)|
              && forall s :: s in sends ==> s.destination.Private?
    // private channel of a non-subscriber: nothing
    ensures IsPrivateChannel(msg.channelId) && !Subscribed(store, msg.userId) ==> sends == []
    // private channel of a subscriber: the room first, then every subscriber, sender included
    ensures msg.platform == Platform && IsPrivateChannel(msg.channelId) && Subscribed(store, msg.userId) ==>
              && |sends| == |Subscribers(store)| + 1
              && sends[0] == Send(Public, Line(msg.username, msg.content))
              && Send(Private(msg.userId), Line(msg.username, msg.content)) in sends
  {
    if msg.platform != Platform {
      return [];
    }
    var userData := Get(store, msg.userId);
    var text := Line(msg.username, msg.content);
    ChannelKindsExclusive(msg.channelId);
    if IsPublicChannel(msg.channelId) {
      var list := QuerySubscribers(store);
      sends := FanOut(list, text);
    } else if IsPrivateChannel(msg.channelId) {
      if |userData| <= 0 || !userData[0].status {
        return [];
      }
      var list := QuerySubscribers(store);
      var fan := FanOut(list, text);
      sends := [Send(Public, text)] + fan;
      assert sends[1..] == fan;
      assert Send(Private(msg.userId), text) in fan;
    } else {
      sends := [];
    }
  }
}

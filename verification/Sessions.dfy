/** The session state the program updates in place. */
module Sessions {
  import opened Text
  import opened Messages
  import opened ClientIds
  import opened Views

  /** How far the initial handshake of a connection has come. */
  class Handshake {
    var haveNick: bool
    var haveUser: bool
    var haveMotd: bool

    function View(): Flags
      reads this
    {
      Flags(haveNick, haveUser, haveMotd)
    }

    constructor ()
      ensures View() == NO_FLAGS
    {
      haveNick, haveUser, haveMotd := false, false, false;
    }

    method UpdateFromClient(msg: Message)
      modifies this
      ensures View() == FlagsFromClient(old(View()), msg)
    {
      if View().Done() { return; }
      match msg.command {
        case User => haveUser := true;
        case Nick => haveNick := true;
        case _ =>
      }
    }

    method UpdateFromServer(msg: Message)
      modifies this
      ensures View() == FlagsFromServer(old(View()), msg)
    {
      if View().Done() { return; }
      match msg.command {
        case ErrNonicknamegiven | ErrErroneusnickname | ErrNicknameinuse | ErrNickcollision =>
          haveNick := false;
        case RplEndofmotd | ErrNomotd =>
          haveMotd := true;
        case _ =>
      }
    }
  }

  /** One channel: its topic and who is in it. */
  class ChannelState {
    var topic: string
    var users: set<string>

    function View(): ChannelView
      reads this
    {
      ChannelView(topic, users)
    }

    constructor (topic: string)
      ensures View() == ChannelView(topic, {})
    {
      this.topic, users := topic, {};
    }

    /** The users in the order of one iteration over the map, which Go leaves open. */
    method Users() returns (names: seq<string>)
      ensures Enumerates(names, users)
    {
      names := [];
      var rest := users;
      while rest != {}
        invariant rest <= users
        invariant forall i | 0 <= i < |names| :: names[i] in users && names[i] !in rest
        invariant forall x | x in users :: x in rest || x in names
        invariant forall i, j | 0 <= i < j < |names| :: names[i] != names[j]
      {
        var nick :| nick in rest;
        names, rest := names + [nick], rest - {nick};
      }
    }

    method AddUser(nick: string)
      modifies this`users
      ensures users == old(users) + {nick}
    {
      users := users + {nick};
    }

    method RemoveUser(nick: string)
      modifies this`users
      ensures users == old(users) - {nick}
    {
      users := users - {nick};
    }

    method UpdateFromServer(msg: Message)
      requires Indexable(msg)
      modifies this`users
      ensures View() == ChannelAfter(old(View()), msg)
    {
      match msg.command {
        case Join =>
          var clientId := Parse(msg.prefix);
          if clientId.None? { return; }
          AddUser(clientId.value.nick);
        case Part | Kick | Quit =>
          var clientId := Parse(msg.prefix);
          if clientId.None? { return; }
          RemoveUser(clientId.value.nick);
        case RplNamereply =>
          AddNames(msg.params[3]);
        case Nick =>
          var newNick := msg.params[0];
          var clientId := Parse(msg.prefix);
          if clientId.None? { return; }
          if clientId.value.nick in users {
            RemoveUser(clientId.value.nick);
            AddUser(newNick);
          }
        case _ =>
      }
    }

    /** The loop over the tokens of a NAMES reply. */
    method AddNames(text: string)
      modifies this`users
      ensures users == old(users) + NamesIn(text)
    {
      hide TokenNick;
      var tokens := Split(text, ' ');
      assert NicksOf([]) == {};
      for i := 0 to |tokens|
        invariant users == old(users) + NicksOf(tokens[..i])
      {
        assert tokens[..i + 1] == tokens[..i] + [tokens[i]];
        NicksOfMore(tokens[..i], tokens[i]);
        var nick := ParseToken(tokens[i]);
        AddUser(nick);
      }
      assert tokens[..|tokens|] == tokens;
    }

    /** A token that does not parse leaves the nick empty. */
    static method ParseToken(token: string) returns (nick: string)
      ensures nick == TokenNick(token)
    {
      nick := "";
      var clientId := Parse(Trim(token));
      if clientId.Some? {
        nick := clientId.value.nick;
      }
    }
  }

  /** The states of all channels we are in, by name. */
  class ChannelMap {
    var channels: map<string, ChannelState>

    /** Different names have different states. */
    ghost predicate Valid()
      reads this
    {
      forall c, d | c in channels && d in channels && c != d :: channels[c] != channels[d]
    }

    ghost function View(): ChannelViews
      reads this, channels.Values
    {
      map c | c in channels :: channels[c].View()
    }

    constructor ()
      ensures channels == map[]
    {
      channels := map[];
    }

    predicate HaveChannel(name: string)
      reads this
    {
      name in channels
    }

    /** The state of the channel, made on the spot if we are not in it. */
    method GetChannel(name: string) returns (state: ChannelState)
      requires Valid()
      modifies this
      ensures Valid()
      ensures name in old(channels) ==> channels == old(channels)
      ensures name !in old(channels) ==> fresh(state) && channels == old(channels)[name := state]
      ensures name in channels && channels[name] == state
      ensures state.View() == ChannelIn(old(View()), name)
      ensures View() == old(View())[name := state.View()]
    {
      if !HaveChannel(name) {
        var fresh_ := new ChannelState("");
        channels := channels[name := fresh_];
      }
      state := channels[name];
    }

    method DeleteChannel(name: string)
      requires Valid()
      modifies this
      ensures Valid() && channels == old(channels) - {name}
      ensures View() == old(View()) - {name}
    {
      channels := channels - {name};
    }

    method UpdateFromServer(msg: Message)
      requires Valid() && Indexable(msg)
      modifies this, channels.Values
      ensures Valid()
      ensures View() == ChannelsAfter(old(View()), msg)
      ensures fresh(channels.Values - old(channels.Values))
      ensures forall c | c in old(channels) :: c in channels && channels[c] == old(channels[c])
    {
      match msg.command {
        case Kick | Part | Join => UpdateOne(msg.params[0], msg);
        case RplTopic => SetTopic(msg.params[1], msg.params[2]);
        case RplNamereply => UpdateOne(msg.params[2], msg);
        case Nick | Quit => UpdateEvery(msg);
        case _ =>
      }
    }

    method UpdateOne(name: string, msg: Message)
      requires Valid() && Indexable(msg)
      modifies this, channels.Values
      ensures Valid()
      ensures View() == old(View())[name := ChannelAfter(ChannelIn(old(View()), name), msg)]
      ensures fresh(channels.Values - old(channels.Values))
      ensures forall c | c in old(channels) :: c in channels && channels[c] == old(channels[c])
    {
      hide ChannelAfter, Indexable;
      var state := GetChannel(name);
      state.UpdateFromServer(msg);
    }

    method SetTopic(name: string, topic: string)
      requires Valid()
      modifies this, channels.Values
      ensures Valid()
      ensures View() == old(View())[name := ChannelIn(old(View()), name).(topic := topic)]
      ensures fresh(channels.Values - old(channels.Values))
      ensures forall c | c in old(channels) :: c in channels && channels[c] == old(channels[c])
    {
      var state := GetChannel(name);
      state.topic := topic;
    }

    /** The loop over every channel, in no particular order. */
    method UpdateEvery(msg: Message)
      requires Valid() && Indexable(msg)
      modifies channels.Values
      ensures View() == map c | c in old(View()) :: ChannelAfter(old(View())[c], msg)
    {
      var rest := channels.Keys;
      while rest != {}
        invariant rest <= channels.Keys
        invariant forall c | c in channels ::
            channels[c].View() == if c in rest then old(channels[c].View())
                                  else ChannelAfter(old(channels[c].View()), msg)
      {
        var c :| c in rest;
        channels[c].UpdateFromServer(msg);
        rest := rest - {c};
      }
    }
  }

  /** What is known about one connection: who we are on it, its handshake, its channels. */
  class Session {
    var id: ClientId
    const handshake: Handshake
    const channels: ChannelMap
    ghost var Repr: set<object>

    ghost predicate Valid()
      reads this, Repr
      ensures Valid() ==> this in Repr
    {
      && {this, handshake, channels} <= Repr
      && channels.Valid()
      && channels.channels.Values <= Repr
    }

    ghost function View(): SessionView
      requires Valid()
      reads this, Repr
    {
      SessionView(id, handshake.View(), channels.View())
    }

    constructor ()
      ensures Valid() && fresh(Repr)
      ensures View() == NEW_SESSION
    {
      id := NOBODY;
      handshake := new Handshake();
      channels := new ChannelMap();
      new;
      Repr := {this, handshake, channels};
    }

    function IsMe(prefix: string): bool
      reads this
    {
      match Parse(prefix)
      case Some(clientId) => clientId.nick == id.nick
      case None => false
    }

    predicate HaveChannel(name: string)
      reads this, channels
    {
      channels.HaveChannel(name)
    }

    method GetChannel(name: string) returns (state: ChannelState)
      requires Valid()
      modifies Repr
      ensures Valid() && fresh(Repr - old(Repr))
      ensures state in Repr && name in channels.channels && channels.channels[name] == state
      ensures View() == old(View()).(channels := old(View()).channels[name :=
                                                   ChannelIn(old(View()).channels, name)])
      ensures forall c | c in old(channels.channels) ::
                c in channels.channels && channels.channels[c] == old(channels.channels[c])
    {
      state := channels.GetChannel(name);
      Repr := Repr + {state};
    }

    method UpdateFromClient(msg: Message)
      requires Valid()
      modifies Repr
      ensures Valid() && Repr == old(Repr)
      ensures View() == SessionFromClient(old(View()), msg)
      ensures channels.channels == old(channels.channels)
    {
      handshake.UpdateFromClient(msg);
    }

    method UpdateFromServer(msg: Message)
      requires Valid() && Indexable(msg)
      modifies Repr
      ensures Valid() && fresh(Repr - old(Repr))
      ensures View() == SessionFromServer(old(View()), msg)
      ensures forall c | c in old(channels.channels) && c in channels.channels ::
                channels.channels[c] == old(channels.channels[c])
    {
      hide FlagsFromServer, ChannelsAfter, SelfAfter, Indexable;
      handshake.UpdateFromServer(msg);
      channels.UpdateFromServer(msg);
      Repr := Repr + channels.channels.Values;
      if IsMe(msg.prefix) {
        UpdateSelf(msg);
      }
    }

    /** The message is about us. */
    method UpdateSelf(msg: Message)
      requires Valid() && Indexable(msg)
      modifies Repr
      ensures Valid() && Repr == old(Repr)
      ensures View() == SelfAfter(old(View()), msg)
      ensures forall c | c in channels.channels ::
                c in old(channels.channels) && channels.channels[c] == old(channels.channels[c])
    {
      match msg.command {
        case Kick | Part => channels.DeleteChannel(msg.params[0]);
        case Nick => id := id.(nick := msg.params[0]);
        case _ =>
      }
    }
  }
}

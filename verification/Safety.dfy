/** What every event of the loop keeps: the phases of the two connections, the agreement
    about the handshake, the containment of the client's view, and the validity of all
    that is sent and stored. */
module Safety {
  import opened Text
  import opened Messages
  import opened ClientIds
  import opened Views
  import opened Logs
  import opened Machine

  // ---- The invariants -----------------------------------------------------------------

  /** A client needs a server, an unfinished server handshake needs a client, and a closed
      connection has nothing left of its session. */
  predicate Phases(client: Conn, server: Conn)
  {
    && (client.open ==> server.open)
    && (server.open && !server.session.flags.Done() ==> client.open)
    && (!client.open ==> client.session == NEW_SESSION)
    && (!server.open ==> server.session == NEW_SESSION)
  }

  /** While the server's handshake is unfinished, both sides are at the same point of it.
      `clientFlags` are the client's, or what they will be once it is told something. */
  predicate Agree(clientFlags: Flags, server: Conn)
  {
    server.open && !server.session.flags.Done() ==> clientFlags == server.session.flags
  }

  predicate ChannelWithin(a: ChannelView, b: ChannelView)
  {
    a.users <= b.users && (a.topic == "" || a.topic == b.topic)
  }

  /** Whatever the client has been shown, the session from before the log knows. */
  ghost predicate Contained(shown: SessionView, preLog: SessionView)
  {
    && preLog.id == NOBODY
    && forall c | c in shown.channels ::
         c in preLog.channels && ChannelWithin(shown.channels[c], preLog.channels[c])
  }

  /** Logs hold valid messages of the kinds that are logged, each under its own name. */
  predicate Loggably(name: string, m: Message)
  {
    Loggable(m.command) && IsValid(m) && Indexable(m) && m.Param(0) == name
  }

  ghost predicate WellKept(logs: Log)
  {
    forall name, m | name in logs && m in logs[name] :: Loggably(name, m)
  }

  ghost predicate AllValid(ms: seq<Message>)
  {
    forall m | m in ms :: IsValid(m)
  }

  /** What is cached of the welcome sequence is enough to send it again. */
  predicate CacheReady(haveCache: bool, cache: Cache)
  {
    haveCache ==> 4 <= |cache.myinfo| <= 14
  }

  /** Everything sent and stored is valid. */
  ghost predicate Sane(s: State)
  {
    && AllValid(s.toClient)
    && AllValid(s.toServer)
    && CacheReady(s.haveCache, s.cache)
    && WellKept(s.logs)
  }

  /** Safe but for agreement. */
  ghost predicate NearlySafe(s: State)
  {
    Phases(s.client, s.server) && Contained(s.client.session, s.preLog) && Sane(s)
  }

  ghost predicate Safe(s: State)
  {
    NearlySafe(s) && Agree(s.client.session.flags, s.server)
  }

  /** Safe once the client too is told `m`. */
  ghost predicate SafeUpTo(s: State, m: Message)
  {
    NearlySafe(s) && Agree(FlagsFromServer(s.client.session.flags, m), s.server)
  }

  /** `m` is no part of a handshake, so telling the client changes no flags. */
  predicate Quiet(m: Message)
  {
    !RejectsNick(m.command) && !EndsMotd(m.command)
  }

  // ---- Sending ------------------------------------------------------------------------

  lemma DropKeepsSafe(s: State)
    requires NearlySafe(s)
    ensures Safe(DropClient(s))
  {
    hide WellKept, AllValid, CacheReady;
  }

  lemma ContainedStep(shown: SessionView, preLog: SessionView, m: Message)
    requires Contained(shown, preLog)
    ensures Contained(SessionFromServer(shown, m), SessionFromServer(preLog, m))
  {
    var shown', preLog' := SessionFromServer(shown, m), SessionFromServer(preLog, m);
    assert !IsMe(preLog, m.prefix);
    forall c | c in shown'.channels
      ensures c in preLog'.channels && ChannelWithin(shown'.channels[c], preLog'.channels[c])
    {
      OneChannel(shown, m, c);
      OneChannel(preLog, m, c);
    }
  }

  lemma SendClientKeepsSafe(env: Env, s: State, m: Message)
    requires SafeUpTo(s, m) && IsValid(m)
    ensures Safe(SendClient(env, s, m).0)
  {
    hide WellKept, CacheReady, IsValid, ChannelsAfter, Contained;
    if s.client.open {
      if env.writes(s.attempts) {
        ContainedStep(s.client.session, s.preLog, m);
      } else {
        DropKeepsSafe(s.(attempts := s.attempts + 1));
      }
    }
  }

  lemma SendServerKeepsSafe(env: Env, s: State, m: Message)
    requires NearlySafe(s) && IsValid(m)
    requires s.server.open && !s.server.session.flags.Done() ==>
               s.client.session.flags == FlagsFromClient(s.server.session.flags, m)
    ensures Safe(SendServer(env, s, m).0)
  {
    hide WellKept, CacheReady, IsValid;
  }

  /** What a send to the client comes to, beside keeping safe. */
  lemma Sent(env: Env, s: State, m: Message)
    ensures var (t, ok) := SendClient(env, s, m);
            && t.logs == s.logs && t.ledger == s.ledger && t.toServer == s.toServer
            && (ok <==> s.client.open && env.writes(s.attempts))
            && t.toClient == (if ok then s.toClient + [m] else s.toClient)
            && t.haveCache == s.haveCache && t.cache == s.cache && t.serverPrefix == s.serverPrefix
            && (ok ==>
                  && s.client.open && t.server == s.server
                  && t.client == s.client.(session := SessionFromServer(s.client.session, m))
                  && t.preLog == SessionFromServer(s.preLog, m))
            && (!ok ==>
                  && !t.client.open && t.preLog == s.preLog
                  && t.client == Shutdown(s.client)
                  && (t.server == s.server || t.server == CLOSED)
                  && (s.server.session.flags.Done() ==> t.server == s.server))
  {
  }

  lemma {:induction false} SendAllKeepsSafe(env: Env, s: State, ms: seq<Message>)
    requires Safe(s) && forall m | m in ms :: IsValid(m) && Quiet(m)
    ensures Safe(SendAll(env, s, ms).0)
    ensures s.server.session.flags.Done() ==> SendAll(env, s, ms).0.server == s.server
    ensures SendAll(env, s, ms).1 && s.client.open ==> SendAll(env, s, ms).0.client.open
    decreases |ms|
  {
    hide SendClient, NearlySafe, SessionFromServer;
    if ms != [] {
      assert ms[0] in ms && forall m | m in ms[1..] :: m in ms;
      SendClientKeepsSafe(env, s, ms[0]);
      Sent(env, s, ms[0]);
      var (t, ok) := SendClient(env, s, ms[0]);
      if ok { SendAllKeepsSafe(env, t, ms[1..]); }
    }
  }

  lemma {:induction false} ReplayKeepsSafe(env: Env, s: State, name: string, ms: seq<Message>, i: nat)
    requires Safe(s) && i <= |ms| && forall m | m in ms :: Loggably(name, m)
    ensures Safe(ReplayFrom(env, s, name, ms, i))
    decreases |ms| - i
  {
    hide SendClient, Contained, Phases, AllValid, CacheReady;
    if i < |ms| {
      assert Loggably(name, ms[i]);
      SendClientKeepsSafe(env, s, ms[i]);
      var (t, ok) := SendClient(env, s, ms[i]);
      if ok {
        var u := t.(ledger := t.ledger.(replayed := t.ledger.replayed + multiset{ms[i]}));
        ReplayKeepsSafe(env, u, name, ms, i + 1);
      }
    }
  }

  lemma ReplayOfLogKeepsSafe(env: Env, s: State, name: string)
    requires Safe(s)
    ensures Safe(Replay(env, s, name))
  {
    hide ReplayFrom;
    ReplayKeepsSafe(env, s, name, LogOf(s.logs, name), 0);
  }

  // ---- Rejoining a channel ----------------------------------------------------------------

  lemma TouchKeepsSafe(s: State, name: string)
    requires Safe(s) && s.client.open
    ensures Safe(TouchPreLog(s, name))
    ensures name in s.client.session.channels ==> TouchClient(s, name) == s
  {
    hide WellKept, AllValid, CacheReady;
  }

  /** A message about channel `name` sent to a client. */
  lemma SentAbout(env: Env, s: State, m: Message, name: string)
    requires IsAbout(m, name) && m.command in {Join, RplTopic, RplNamereply}
    ensures var (t, ok) := SendClient(env, s, m);
            ok ==>
              && t.client.open && name in t.client.session.channels && name in t.preLog.channels
              && t.client.session.channels[name] ==
                 OneChannelAfter(ChannelIn(s.client.session.channels, name), m, name)
              && t.preLog.channels[name] == OneChannelAfter(ChannelIn(s.preLog.channels, name), m, name)
  {
    hide SendClient, SessionFromServer;
    Sent(env, s, m);
    OneChannel(s.client.session, m, name);
    OneChannel(s.preLog, m, name);
  }

  lemma NameKeepsSafe(env: Env, s: State, name: string, m: Message, nick: string)
    requires Safe(s) && m.command == RplNamereply && IsValid(m) && m.Param(2) == name
    requires nick in UsersIn(s.preLog, name)
    ensures var (t, ok) := SendClient(env, s, m);
            && Safe(t)
            && (ok ==>
                  && t.client.open && name in t.client.session.channels
                  && UsersIn(s.preLog, name) <= UsersIn(t.preLog, name)
                  && Safe(AddClientUser(t, name, nick)))
  {
    hide SendClient, SessionFromServer;
    SendClientKeepsSafe(env, s, m);
    SentAbout(env, s, m, name);
    var (t, ok) := SendClient(env, s, m);
    if ok { AddUserKeepsSafe(t, name, nick); }
  }

  lemma AddUserKeepsSafe(s: State, name: string, nick: string)
    requires Safe(s) && s.client.open && name in s.client.session.channels
    requires nick in UsersIn(s.preLog, name)
    ensures Safe(AddClientUser(s, name, nick))
  {
    hide WellKept, AllValid, CacheReady;
  }

  lemma {:induction false} NamesKeepSafe(
    env: Env, s: State, name: string, myNick: string, nicks: seq<string>)
    requires Safe(s) && s.client.open && name in s.client.session.channels
    requires forall nick | nick in nicks :: nick in UsersIn(s.preLog, name)
    ensures var (t, ok) := SendNames(env, s, name, myNick, nicks);
            Safe(t) && (ok ==> t.client.open)
    decreases |nicks|
  {
    hide SendClient, Safe, IsValid, UsersIn;
    if nicks != [] {
      var m := NamesMessage(s.serverPrefix, myNick, name, nicks[0]);
      assert IsValid(m) by { NamesAreValid(s.serverPrefix, myNick, name, nicks[0]); }
      NameKeepsSafe(env, s, name, m, nicks[0]);
      var (t, ok) := SendClient(env, s, m);
      if ok {
        var u := AddClientUser(t, name, nicks[0]);
        AddedUserOnly(t, name, nicks[0]);
        NamesKeepSafe(env, u, name, myNick, nicks[1..]);
      }
    }
  }

  lemma NamesAreValid(prefix: string, myNick: string, name: string, nick: string)
    ensures IsValid(NamesMessage(prefix, myNick, name, nick))
  {
  }

  lemma AddedUserOnly(s: State, name: string, nick: string)
    ensures var t := AddClientUser(s, name, nick);
            && t.client.open == s.client.open && name in t.client.session.channels
            && UsersIn(t.preLog, name) == UsersIn(s.preLog, name)
  {
  }

  lemma JoinKeepsSafe(env: Env, s: State, name: string)
    requires Safe(s) && s.client.open
    ensures var (t, ok) := SendJoin(env, s, name);
            && Safe(t)
            && (ok ==> t.client.open && name in t.client.session.channels
                       && UsersIn(t.preLog, name) == Roster(s, name))
  {
    hide SendClient, Safe, Roster, UsersIn, TopicMessage, TouchPreLog;
    JoinMessageKeepsSafe(env, s, name);
    var t := SendClient(env, TouchPreLog(s, name), JoinMessage(s, name)).0;
    if t.client.open { TopicKeepsSafe(env, t, name); }
  }

  lemma JoinMessageKeepsSafe(env: Env, s: State, name: string)
    requires Safe(s) && s.client.open
    ensures var (t, ok) := SendClient(env, TouchPreLog(s, name), JoinMessage(s, name));
            && Safe(t) && (ok <==> t.client.open)
            && (ok ==> name in t.client.session.channels && UsersIn(t.preLog, name) == Roster(s, name))
  {
    hide SendClient, NearlySafe, SessionFromServer;
    var s', m := TouchPreLog(s, name), JoinMessage(s, name);
    TouchKeepsSafe(s, name);
    SendClientKeepsSafe(env, s', m);
    SentAbout(env, s', m, name);
    Sent(env, s', m);
  }

  lemma TopicKeepsSafe(env: Env, s: State, name: string)
    requires Safe(s) && s.client.open && name in s.client.session.channels
    ensures var (t, ok) := SendClient(env, s, TopicMessage(s, name));
            && Safe(t)
            && (ok ==> t.client.open && name in t.client.session.channels
                       && UsersIn(t.preLog, name) == UsersIn(s.preLog, name))
  {
    hide SendClient, NearlySafe, SessionFromServer;
    SendClientKeepsSafe(env, s, TopicMessage(s, name));
    SentAbout(env, s, TopicMessage(s, name), name);
  }

  lemma IntroduceKeepsSafe(env: Env, s: State, name: string, order: seq<string>)
    requires Safe(s) && s.client.open && Enumerates(order, Roster(s, name))
    ensures Safe(Introduce(env, s, name, order).0)
  {
    hide SendJoin, SendNames, SendClient, NearlySafe, UsersIn, Roster;
    JoinKeepsSafe(env, s, name);
    var (t, ok) := SendJoin(env, s, name);
    if ok {
      TouchKeepsSafe(t, name);
      NamesKeepSafe(env, t, name, t.server.session.id.nick, order);
      var (u, named) := SendNames(env, t, name, t.server.session.id.nick, order);
      if named {
        SendClientKeepsSafe(env, u, EndOfNamesMessage(u, name));
      }
    }
  }

  lemma RejoinKeepsSafe(env: Env, s: State, name: string, order: seq<string>)
    requires Safe(s) && s.client.open && Enumerates(order, Roster(s, name))
    ensures Safe(Rejoin(env, s, name, order))
  {
    hide Introduce, Replay;
    IntroduceKeepsSafe(env, s, name, order);
    ReplayOfLogKeepsSafe(env, Introduce(env, s, name, order).0, name);
  }

  // ---- Messages from the client ---------------------------------------------------------------

  lemma WelcomeIsValid(s: State)
    requires s.haveCache && CacheReady(s.haveCache, s.cache)
    ensures forall m | m in WelcomeMessages(s) :: IsValid(m) && Quiet(m)
  {
  }

  lemma WelcomeBackKeepsSafe(env: Env, s: State)
    requires Safe(s) && s.client.open && s.server.session.flags.Done() && s.haveCache
    ensures Safe(WelcomeBack(env, s))
  {
    hide SendAll, SendServer, WelcomeMessages, Contained, WellKept, AllValid;
    WelcomeIsValid(s);
    SendAllKeepsSafe(env, s, WelcomeMessages(s));
    var (t, ok) := SendAll(env, s, WelcomeMessages(s));
    if ok {
      var u := t.(client := t.client.(session := t.client.session.(id := t.server.session.id)));
      NewIdKeepsContained(t.client.session, t.server.session.id, t.preLog);
      SendServerKeepsSafe(env, u, Message("", Motd, []));
    }
  }

  lemma NewIdKeepsContained(shown: SessionView, id: ClientId, preLog: SessionView)
    ensures Contained(shown.(id := id), preLog) == Contained(shown, preLog)
  {
  }

  lemma NewFlagsKeepContained(shown: SessionView, m: Message, preLog: SessionView)
    ensures Contained(SessionFromClient(shown, m), preLog) == Contained(shown, preLog)
  {
  }

  lemma HandshakeKeepsSafe(env: Env, s: State, t: State, m: Message)
    requires Safe(s) && s.client.open && IsValid(m)
    requires t == s.(client := s.client.(session := SessionFromClient(s.client.session, m)))
    requires !t.client.session.flags.Done()
    ensures Safe(HandleHandshake(env, t, m))
  {
    hide SendServer, WelcomeBack, Contained, WellKept, AllValid, CacheReady;
    NewFlagsKeepContained(s.client.session, m, s.preLog);
    if t.server.session.flags.Done() {
      if t.haveCache { WelcomeBackKeepsSafe(env, t); } else { ResetKeepsSafe(t); }
    } else {
      SendServerKeepsSafe(env, t, m);
    }
  }

  lemma ResetKeepsSafe(s: State)
    requires NearlySafe(s)
    ensures Safe(Reset(s))
  {
    hide WellKept, AllValid, CacheReady;
  }

  lemma HandleCommandKeepsSafe(env: Env, s: State, t: State, m: Message, order: seq<string>)
    requires Safe(s) && s.client.open && IsValid(m)
    requires t == s.(client := s.client.(session := SessionFromClient(s.client.session, m)))
    requires t.client.session.flags.Done()
    requires m.command.Join? ==> Enumerates(order, Roster(s, m.Param(0)))
    ensures Safe(HandleCommand(env, t, m, order))
  {
    hide SendServer, SendClient, DropClient, Rejoin, Contained, WellKept, AllValid, CacheReady, Enumerates;
    NewFlagsKeepContained(s.client.session, m, s.preLog);
    match m.command
    case Ping => SendClientKeepsSafe(env, t, m.(prefix := "", command := Pong));
    case Pong =>
    case Quit => DropKeepsSafe(t);
    case Join =>
      if m.Param(0) !in t.client.session.channels {
        if m.Param(0) in t.server.session.channels {
          assert Roster(t, m.Param(0)) == Roster(s, m.Param(0));
          RejoinKeepsSafe(env, t, m.Param(0), order);
        } else {
          SendServerKeepsSafe(env, t, m);
        }
      }
    case _ => SendServerKeepsSafe(env, t, m);
  }

  lemma HandleClientKeepsSafe(env: Env, s: State, m: Message, order: seq<string>)
    requires Safe(s) && s.client.open
    requires m.command.Join? && IsValid(m) ==> Enumerates(order, Roster(s, m.Param(0)))
    ensures Safe(HandleClient(env, s, m, order))
  {
    hide SendClient, DropClient, HandleHandshake, HandleCommand, NearlySafe, Enumerates;
    match Validate(m)
    case Some(reply) =>
      SendClientKeepsSafe(env, s, reply);
      DropKeepsSafe(SendClient(env, s, reply).0);
    case None =>
      var t := s.(client := s.client.(session := SessionFromClient(s.client.session, m)));
      if t.client.session.flags.Done() {
        HandleCommandKeepsSafe(env, s, t, m, order);
      } else {
        HandshakeKeepsSafe(env, s, t, m);
      }
  }

  // ---- Messages from the server -----------------------------------------------------------------

  lemma LogKeepsWellKept(logs: Log, m: Message)
    requires WellKept(logs) && Loggably(m.Param(0), m)
    ensures WellKept(Appended(logs, m.Param(0), m))
  {
    var after := Appended(logs, m.Param(0), m);
    forall name, k | name in after && k in after[name] ensures Loggably(name, k) {
      if !(name == m.Param(0) && k == m) {
        assert k in LogOf(logs, name);
      }
    }
  }

  lemma LogKeepsSafe(s: State, m: Message)
    requires Safe(s) && IsValid(m) && Indexable(m)
    ensures Safe(LogMessage(s, m))
  {
    hide WellKept, AllValid, CacheReady, Contained;
    if Loggable(m.command) { LogKeepsWellKept(s.logs, m); }
  }

  lemma RelayKeepsSafe(env: Env, s: State, m: Message)
    requires SafeUpTo(s, m) && IsValid(m) && Indexable(m)
    ensures Safe(Relay(env, s, m))
  {
    hide SendClient, WellKept, AllValid, CacheReady, Contained, LogMessage;
    SendClientKeepsSafe(env, s, m);
    var (t, ok) := SendClient(env, s, m);
    if !ok { LogKeepsSafe(t, m); }
  }

  lemma TrackIsSafeUpTo(s: State, m: Message)
    requires Safe(s) && s.server.open
    ensures SafeUpTo(Track(s, m), m)
    ensures Quiet(m) ==> Safe(Track(s, m))
  {
    hide WellKept, AllValid, CacheReady, Contained, ChannelsAfter;
  }

  lemma WelcomeKeepsSafe(env: Env, s: State, m: Message)
    requires Safe(s) && s.server.open && IsValid(m) && m.command.RplWelcome?
    ensures Safe(Welcome(env, s, m))
  {
    hide WellKept, AllValid, CacheReady, Contained, SendClient, ChannelsAfter, Parse, LastWord;
    var t := s.(serverPrefix := m.prefix);
    match Parse(LastWord(m.Param(1)))
    case None => ResetKeepsSafe(t);
    case Some(id) =>
      var u := t.(server := t.server.(session := t.server.session.(id := id)));
      SendClientKeepsSafe(env, u, m);
      Sent(env, u, m);
      var (v, ok) := SendClient(env, u, m);
      NewIdKeepsContained(v.client.session, id, v.preLog);
  }

  lemma HandleReplyKeepsSafe(env: Env, s: State, m: Message)
    requires SafeUpTo(s, m) && (Quiet(m) ==> Safe(s))
    requires s.server.open && IsValid(m) && Indexable(m)
    ensures Safe(HandleReply(env, s, m))
  {
    hide SendClient, SendServer, Replay, Relay, LogMessage, Welcome, Contained, WellKept, AllValid;
    match m.command
    case Ping => SendServerKeepsSafe(env, s, m.(prefix := "", command := Pong));
    case Pong =>
    case RplWelcome => WelcomeKeepsSafe(env, s, m);
    case RplYourhost => SendClientKeepsSafe(env, s.(cache := s.cache.(yourhost := m.Param(1))), m);
    case RplCreated => SendClientKeepsSafe(env, s.(cache := s.cache.(created := m.Param(1))), m);
    case RplMyinfo =>
      var t := s.(cache := s.cache.(myinfo := m.params[1..]));
      SendClientKeepsSafe(env, t, m);
      Sent(env, t, m);
    case RplEndofmotd | ErrNomotd =>
      SendClientKeepsSafe(env, s, m);
      var t := SendClient(env, s, m).0;
      ReplayOfLogKeepsSafe(env, t, t.client.session.id.nick);
    case RplEndofnames =>
      SendClientKeepsSafe(env, s, m);
      ReplayOfLogKeepsSafe(env, SendClient(env, s, m).0, m.Param(1));
    case Privmsg | Notice | Join | Kick | Part | Quit | Nick =>
      LogKeepsSafe(s, m);
      RelayKeepsSafe(env, s, m);
    case RplMotdstart | RplMotd | RplNamereply | RplTopic
       | ErrNonicknamegiven | ErrErroneusnickname | ErrNicknameinuse | ErrNickcollision =>
      SendClientKeepsSafe(env, s, m);
    case _ => RelayKeepsSafe(env, s, m);
  }

  lemma HandleServerKeepsSafe(env: Env, s: State, m: Message)
    requires Safe(s) && s.server.open && (IsValid(m) ==> Indexable(m))
    ensures Safe(HandleServer(env, s, m))
  {
    hide HandleReply, NearlySafe, Reset, IsValid;
    if IsValid(m) {
      TrackIsSafeUpTo(s, m);
      assert Track(s, m).server.open;
      HandleReplyKeepsSafe(env, Track(s, m), m);
    } else {
      ResetKeepsSafe(s);
    }
  }

  // ---- The loop ------------------------------------------------------------------------------

  lemma CheckClientKeepsSafe(env: Env, s: State, now: int)
    requires Safe(s)
    ensures Safe(CheckClient(env, s, now))
  {
    hide SendClient, DropClient, Contained, WellKept, AllValid, CacheReady;
    DropKeepsSafe(s);
    SendClientKeepsSafe(env, s, PING);
  }

  lemma CheckServerKeepsSafe(env: Env, s: State, now: int)
    requires Safe(s)
    ensures Safe(CheckServer(env, s, now))
  {
    hide SendServer, Reset, Contained, WellKept, AllValid, CacheReady;
    ResetKeepsSafe(s);
    SendServerKeepsSafe(env, s, PING);
  }

  lemma ConnectKeepsSafe(env: Env, s: State, connected: bool, clientNow: int, serverNow: int)
    requires Safe(s)
    ensures Safe(Connect(env, s, connected, clientNow, serverNow))
  {
    hide WellKept, AllValid, CacheReady;
  }

  lemma StepKeepsSafe(env: Env, s: State, e: Event)
    requires Safe(s) && Enabled(s, e)
    ensures Safe(Step(env, s, e))
  {
    hide HandleClient, HandleServer, CheckClient, CheckServer, Connect, DropClient, Reset,
         Contained, WellKept, AllValid, CacheReady;
    match e
    case ClientMessage(m, order, now) =>
      HandleClientKeepsSafe(env, s.(client := Renewed(env, s.client, now)), m, order);
    case ClientClosed(now) => DropKeepsSafe(s.(client := Renewed(env, s.client, now)));
    case ServerMessage(m, now) =>
      HandleServerKeepsSafe(env, s.(server := Renewed(env, s.server, now)), m);
    case ServerClosed(now) => ResetKeepsSafe(s.(server := Renewed(env, s.server, now)));
    case Tick(clientNow, serverNow) =>
      CheckClientKeepsSafe(env, s, clientNow);
      CheckServerKeepsSafe(env, CheckClient(env, s, clientNow), serverNow);
    case NewClient(connected, clientNow, serverNow) =>
      ConnectKeepsSafe(env, s, connected, clientNow, serverNow);
    case Stop => ResetKeepsSafe(s);
  }

  /** Safety of all runs: from a store that holds nothing but what this proxy logs, every
      state at the top of the loop is safe. */
  lemma {:induction false} RunsAreSafe(env: Env, states: seq<State>, events: seq<Event>, logs: Log, i: nat)
    requires IsRun(env, states, events) && states[0] == Initial(logs) && WellKept(logs)
    requires i < |states|
    ensures Safe(states[i])
  {
    hide Step, Enabled;
    if i > 0 {
      RunsAreSafe(env, states, events, logs, i - 1);
      StepKeepsSafe(env, states[i - 1], events[i - 1]);
    }
  }

  /** In particular no client has finished a handshake that the server has not. */
  lemma ClientIsNeverAhead(env: Env, states: seq<State>, events: seq<Event>, logs: Log, i: nat)
    requires IsRun(env, states, events) && states[0] == Initial(logs) && WellKept(logs)
    requires i < |states|
    ensures states[i].client.session.flags.Done() ==> states[i].server.session.flags.Done()
  {
    hide Step, Enabled;
    RunsAreSafe(env, states, events, logs, i);
  }
}

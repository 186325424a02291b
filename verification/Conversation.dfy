/** What the proxy says, to the client and to the server: for every event a script of what is
    written if all writes work, and what comes of it if some do not. */
module Conversation {
  import opened Text
  import opened Messages
  import opened ClientIds
  import opened Views
  import opened Logs
  import opened Machine
  import opened Safety
  import opened Rejoining
  import opened Delivery

  // ---- Writing from a script ------------------------------------------------------------

  /** How many of `ms` are written from attempt `k` on, up to the first failure. */
  function Through(env: Env, k: nat, ms: seq<Message>): (n: nat)
    ensures n <= |ms|
    decreases |ms|
  {
    if ms == [] || !env.writes(k) then 0 else 1 + Through(env, k + 1, ms[1..])
  }

  predicate AllThrough(env: Env, k: nat, ms: seq<Message>)
  {
    Through(env, k, ms) == |ms|
  }

  function Got(env: Env, k: nat, ms: seq<Message>): seq<Message>
  {
    ms[..Through(env, k, ms)]
  }

  lemma {:induction false} ThroughBoth(env: Env, k: nat, ms: seq<Message>, more: seq<Message>)
    ensures Got(env, k, ms + more) ==
            if AllThrough(env, k, ms) then ms + Got(env, k + |ms|, more) else Got(env, k, ms)
    ensures AllThrough(env, k, ms + more) <==>
            AllThrough(env, k, ms) && AllThrough(env, k + |ms|, more)
    decreases |ms|
  {
    if ms == [] {
      assert ms + more == more;
    } else {
      ThroughBoth(env, k + 1, ms[1..], more);
      assert (ms + more)[1..] == ms[1..] + more;
      if env.writes(k) {
        var n := Through(env, k + 1, ms[1..] + more);
        assert (ms + more)[..n + 1] == [ms[0]] + (ms[1..] + more)[..n];
        assert ms[..Through(env, k + 1, ms[1..]) + 1] == [ms[0]] + ms[1..][..Through(env, k + 1, ms[1..])];
      }
    }
  }

  /** From `s` to `t` the client was written `ms`, and nothing else, up to the first failure,
      which it does not survive. */
  ghost predicate Says(env: Env, s: State, t: State, ms: seq<Message>)
  {
    && t.toClient == s.toClient + Got(env, s.attempts, ms) && t.toServer == s.toServer
    && t.serverPrefix == s.serverPrefix
    && if AllThrough(env, s.attempts, ms)
       then t.client.open && t.attempts == s.attempts + |ms| && t.server == s.server else !t.client.open
  }

  lemma SaysBoth(env: Env, s: State, t: State, u: State, ms: seq<Message>, more: seq<Message>)
    requires Says(env, s, t, ms) && (t.client.open ==> Says(env, t, u, more))
    requires !t.client.open ==> u.toClient == t.toClient && u.toServer == t.toServer && !u.client.open
                                && u.serverPrefix == t.serverPrefix
    ensures Says(env, s, u, ms + more)
  {
    hide Got, AllThrough;
    ThroughBoth(env, s.attempts, ms, more);
    if AllThrough(env, s.attempts, ms) {
      AllGot(env, s.attempts, ms);
      assert (s.toClient + ms) + Got(env, s.attempts + |ms|, more) ==
             s.toClient + (ms + Got(env, s.attempts + |ms|, more));
    }
  }

  lemma AllGot(env: Env, k: nat, ms: seq<Message>)
    ensures AllThrough(env, k, ms) ==> Got(env, k, ms) == ms
  {
  }

  lemma SaysNothing(env: Env, s: State, t: State)
    requires s.client.open && t.client.open && t.toClient == s.toClient && t.toServer == s.toServer
    requires t.attempts == s.attempts && t.server == s.server && t.serverPrefix == s.serverPrefix
    ensures Says(env, s, t, [])
  {
    assert s.toClient + [] == s.toClient;
  }

  /** Changes around it that are not seen from outside. */
  lemma SaysAround(env: Env, s: State, s': State, t: State, t': State, ms: seq<Message>)
    requires Says(env, s', t, ms)
    requires s'.toClient == s.toClient && s'.toServer == s.toServer && s'.attempts == s.attempts
             && s'.server == s.server && s'.serverPrefix == s.serverPrefix
    requires t'.toClient == t.toClient && t'.toServer == t.toServer && t'.attempts == t.attempts
             && t'.server == t.server && t'.client.open == t.client.open && t'.serverPrefix == t.serverPrefix
    ensures Says(env, s, t', ms)
  {
    hide Got, AllThrough;
  }

  lemma SendSays(env: Env, s: State, m: Message)
    requires s.client.open
    ensures Says(env, s, SendClient(env, s, m).0, [m])
    ensures SendClient(env, s, m).1 <==> env.writes(s.attempts)
  {
    hide SessionFromServer, SendClient;
    Sent(env, s, m);
    SendTries(env, s, m);
    assert [m][1..] == [] && [m][..1] == [m] && [m][..0] == [];
    assert Through(env, s.attempts + 1, []) == 0;
    assert s.toClient + [] == s.toClient;
  }

  lemma {:induction false} SendAllSays(env: Env, s: State, ms: seq<Message>)
    requires s.client.open
    ensures Says(env, s, SendAll(env, s, ms).0, ms)
    ensures SendAll(env, s, ms).1 <==> AllThrough(env, s.attempts, ms)
    decreases |ms|
  {
    hide SendClient, Says;
    if ms == [] {
      SaysNothing(env, s, s);
    } else {
      SendSays(env, s, ms[0]);
      var (t, ok) := SendClient(env, s, ms[0]);
      assert t.client.open == ok && (ok ==> t.attempts == s.attempts + 1) by { Opens(env, s, t, ms[0]); }
      if ok { SendAllSays(env, t, ms[1..]); }
      SaysBoth(env, s, t, SendAll(env, s, ms).0, [ms[0]], ms[1..]);
      assert [ms[0]] + ms[1..] == ms;
    }
  }

  lemma Opens(env: Env, s: State, t: State, m: Message)
    requires Says(env, s, t, [m])
    ensures t.client.open <==> env.writes(s.attempts)
    ensures t.client.open ==> t.attempts == s.attempts + 1
  {
    assert [m][1..] == [];
    assert Through(env, s.attempts + 1, []) == 0;
  }

  lemma {:induction false} ReplaySays(env: Env, s: State, name: string, ms: seq<Message>, i: nat)
    requires s.client.open && i <= |ms|
    ensures Says(env, s, ReplayFrom(env, s, name, ms, i), ms[i..])
    decreases |ms| - i
  {
    hide SendClient, Says, Cleared;
    var v := ReplayFrom(env, s, name, ms, i);
    if i == |ms| {
      assert ms[i..] == [];
      SaysNothing(env, s, v);
    } else {
      SendSays(env, s, ms[i]);
      var (t, ok) := SendClient(env, s, ms[i]);
      Opens(env, s, t, ms[i]);
      if ok {
        var u := t.(ledger := t.ledger.(replayed := t.ledger.replayed + multiset{ms[i]}));
        ReplaySays(env, u, name, ms, i + 1);
        SaysAround(env, t, u, v, v, ms[i + 1..]);
      }
      SaysBoth(env, s, t, v, [ms[i]], ms[i + 1..]);
      assert [ms[i]] + ms[i + 1..] == ms[i..];
    }
  }

  lemma ReplayOfLogSays(env: Env, s: State, name: string)
    ensures s.client.open ==> Says(env, s, Replay(env, s, name), LogOf(s.logs, name))
    ensures !s.client.open ==>
              var t := Replay(env, s, name);
              !t.client.open && t.toClient == s.toClient && t.toServer == s.toServer && t.attempts == s.attempts
              && t.server == s.server && t.serverPrefix == s.serverPrefix
  {
    hide ReplayFrom, Says;
    var ms := LogOf(s.logs, name);
    assert ms[0..] == ms;
    if s.client.open { ReplaySays(env, s, name, ms, 0); } else { ClosedReplay(env, s, name, ms); }
  }

  lemma ClosedReplay(env: Env, s: State, name: string, ms: seq<Message>)
    requires !s.client.open
    ensures var t := ReplayFrom(env, s, name, ms, 0);
            !t.client.open && t.toClient == s.toClient && t.toServer == s.toServer && t.attempts == s.attempts
            && t.server == s.server && t.serverPrefix == s.serverPrefix
  {
  }

  lemma SendThenReplaySays(env: Env, s: State, m: Message, name: string)
    requires s.client.open
    ensures Says(env, s, Replay(env, SendClient(env, s, m).0, name), [m] + LogOf(s.logs, name))
  {
    hide SendClient, Replay, Says;
    SendSays(env, s, m);
    Sent(env, s, m);
    var t := SendClient(env, s, m).0;
    Opens(env, s, t, m);
    ReplayOfLogSays(env, t, name);
    SaysBoth(env, s, t, Replay(env, t, name), [m], LogOf(s.logs, name));
  }

  // ---- The scripts ---------------------------------------------------------------------

  const ASK_MOTD := Message("", Motd, [])

  function Answer(m: Message): Message { Message("", Pong, m.params) }

  /** What a client that comes back is welcomed with. */
  function WelcomeLines(s: State): seq<Message>
  {
    var nick := s.server.session.id.nick;
    [Message(s.serverPrefix, RplWelcome,
             [nick, "Welcome back to IRC Idler, " + Print(s.server.session.id)]),
     Message(s.serverPrefix, RplYourhost, [nick, s.cache.yourhost]),
     Message(s.serverPrefix, RplCreated, [nick, s.cache.created]),
     Message(s.serverPrefix, RplMyinfo, [nick] + s.cache.myinfo)]
  }

  /** The client has given USER and NICK, with this message or before, and is not registered. */
  predicate AsksIn(s: State, m: Message)
  {
    var flags := s.client.session.flags;
    && (m.command.Pass? || m.command.User? || m.command.Nick?)
    && (flags.haveUser || m.command.User?) && (flags.haveNick || m.command.Nick?) && !flags.haveMotd
  }

  /** This message completes the client's registration, if it was not complete before. */
  predicate IsIn(s: State, m: Message)
  {
    var flags := s.client.session.flags;
    (flags.haveUser || m.command.User?) && (flags.haveNick || m.command.Nick?) && flags.haveMotd
  }

  function ClientScript(s: State, m: Message, order: seq<string>): seq<Message>
  {
    match Validate(m)
    case Some(reply) => [reply]
    case None =>
      if !IsIn(s, m) then
        if AsksIn(s, m) && s.server.session.flags.Done() && s.haveCache then WelcomeLines(s) else []
      else if m.command.Ping? then [Answer(m)]
      else if m.command.Join? && m.Param(0) !in s.client.session.channels
              && m.Param(0) in s.server.session.channels
      then RejoinMessages(s, m.Param(0), order) + LogOf(s.logs, m.Param(0))
      else []
  }

  function ServerScript(s: State, m: Message): seq<Message>
  {
    match m.command
    case Ping | Pong => []
    case RplWelcome => if Parse(LastWord(m.Param(1))).None? then [] else [m]
    case RplEndofmotd | ErrNomotd => [m] + LogOf(s.logs, s.client.session.id.nick)
    case RplEndofnames => [m] + LogOf(s.logs, m.Param(1))
    case Privmsg | Notice =>
      if m.Param(0) in s.client.session.channels || NickOf(m.Param(0)) == Some(s.client.session.id.nick)
      then [m] else []
    case Join | Kick | Part | Quit | Nick => if s.client.session.flags.Done() then [m] else []
    case _ => [m]
  }

  /** What an event makes the proxy write to the client if all writes work. */
  function ToClient(s: State, e: Event): seq<Message>
  {
    match e
    case ClientMessage(m, order, _) => ClientScript(s, m, order)
    case ServerMessage(m, _) => if s.client.open && IsValid(m) then ServerScript(s, m) else []
    case Tick(now, _) =>
      if s.client.open && !s.client.pingSent && now > s.client.pingDeadline
      then [Message("", Ping, ["irc-idler"])] else []
    case _ => []
  }

  /** The client is in the clear to have `m` sent on to the server. */
  predicate IsForwarded(s: State, m: Message)
  {
    && !m.command.Ping? && !m.command.Pong? && !m.command.Quit?
    && (m.command.Join? ==>
          m.Param(0) !in s.client.session.channels && m.Param(0) !in s.server.session.channels)
  }

  /** The tick costs the client a write. */
  predicate PingsClient(s: State, now: int)
  {
    s.client.open && !s.client.pingSent && now > s.client.pingDeadline
  }

  /** The tick costs the server its connection before its own turn comes. */
  predicate LosesServer(env: Env, s: State, now: int)
  {
    !s.server.session.flags.Done()
    && ((s.client.open && s.client.pingSent && now > s.client.dropDeadline)
        || (PingsClient(s, now) && !env.writes(s.attempts)))
  }

  /** What an event makes the proxy write to the server. */
  function ToServer(env: Env, s: State, e: Event): seq<Message>
  {
    match e
    case ClientMessage(m, _, _) =>
      if !IsValid(m) then []
      else if IsIn(s, m) then if IsForwarded(s, m) && env.writes(s.attempts) then [m] else []
      else if !(m.command.Pass? || m.command.User? || m.command.Nick?) then []
      else if !s.server.session.flags.Done() then if env.writes(s.attempts) then [m] else []
      else if AsksIn(s, m) && s.haveCache && AllThrough(env, s.attempts, WelcomeLines(s) + [ASK_MOTD])
      then [ASK_MOTD] else []
    case ServerMessage(m, _) =>
      if IsValid(m) && m.command.Ping? && env.writes(s.attempts) then [Answer(m)] else []
    case Tick(clientNow, serverNow) =>
      var attempt := s.attempts + if PingsClient(s, clientNow) then 1 else 0;
      if s.server.open && !s.server.pingSent && serverNow > s.server.pingDeadline
         && !LosesServer(env, s, clientNow) && env.writes(attempt)
      then [Message("", Ping, ["irc-idler"])] else []
    case _ => []
  }

  // ---- What the client is written ----------------------------------------------------------

  lemma SendJoinSays(env: Env, s: State, name: string)
    requires s.client.open
    ensures var me, topic := Print(s.client.session.id), ChannelIn(s.preLog.channels, name).topic;
            Says(env, s, SendJoin(env, s, name).0,
                 [Message(me, Join, [name])]
                 + if topic == "" then [] else [Message(s.serverPrefix, RplTopic, [me, name, topic])])
    ensures SendJoin(env, s, name).1 <==> SendJoin(env, s, name).0.client.open
    ensures SendJoin(env, s, name).0.logs == s.logs
    ensures SendJoin(env, s, name).1 ==> name in SendJoin(env, s, name).0.client.session.channels
  {
    hide SendClient, Says, SessionFromServer, NickOf, Print;
    JoinIsSaid(env, s, name);
    FailedJoinCloses(env, s, name);
    var s', m := TouchPreLog(s, name), JoinMessage(s, name);
    SendSays(env, s', m);
    Sent(env, s', m);
    SentAbout(env, s', m, name);
    IdStays(s.client.session, m);
    var t := SendClient(env, s', m).0;
    SaysAround(env, s, s', t, t, [m]);
    Opens(env, s, t, m);
    var topic := ChannelIn(s.preLog.channels, name).topic;
    if t.client.open && topic != "" {
      var m' := TopicMessage(t, name);
      SendSays(env, t, m');
      Sent(env, t, m');
      SentAbout(env, t, m', name);
      SaysBoth(env, s, t, SendClient(env, t, m').0, [m], [m']);
    } else if topic != "" {
      SaysStop(env, s, t, [m], [Message(s.serverPrefix, RplTopic, [Print(s.client.session.id), name, topic])]);
    } else {
      assert [m] + [] == [m];
    }
  }

  /** What comes after a failed write makes no difference. */
  lemma SaysStop(env: Env, s: State, t: State, ms: seq<Message>, more: seq<Message>)
    requires Says(env, s, t, ms) && !t.client.open
    ensures Says(env, s, t, ms + more)
  {
    hide Says;
    SaysBoth(env, s, t, t, ms, more);
  }

  lemma {:induction false} SendNamesSay(env: Env, s: State, name: string, myNick: string, nicks: seq<string>)
    requires s.client.open
    ensures Says(env, s, SendNames(env, s, name, myNick, nicks).0, NamesMessages(s.serverPrefix, myNick, name, nicks))
    ensures SendNames(env, s, name, myNick, nicks).1 <==> SendNames(env, s, name, myNick, nicks).0.client.open
    decreases |nicks|
  {
    hide SendClient, Says;
    var v := SendNames(env, s, name, myNick, nicks).0;
    if nicks == [] {
      SaysNothing(env, s, s);
    } else {
      var m := NamesMessage(s.serverPrefix, myNick, name, nicks[0]);
      SendSays(env, s, m);
      Sent(env, s, m);
      var (t, ok) := SendClient(env, s, m);
      Opens(env, s, t, m);
      var more := NamesMessages(s.serverPrefix, myNick, name, nicks[1..]);
      if ok {
        var u := AddClientUser(t, name, nicks[0]);
        SendNamesSay(env, u, name, myNick, nicks[1..]);
        SaysAround(env, t, u, v, v, more);
      }
      SaysBoth(env, s, t, v, [m], more);
    }
  }

  lemma RejoinSays(env: Env, s: State, name: string, order: seq<string>)
    requires s.client.open
    ensures Says(env, s, Rejoin(env, s, name, order), RejoinMessages(s, name, order) + LogOf(s.logs, name))
  {
    hide SendClient, SendNames, SendJoin, Replay, NamesMessages, Print, Says;
    var me, myNick := Print(s.client.session.id), s.server.session.id.nick;
    var topic := ChannelIn(s.preLog.channels, name).topic;
    var join := [Message(me, Join, [name])]
                + if topic == "" then [] else [Message(s.serverPrefix, RplTopic, [me, name, topic])];
    var names := NamesMessages(s.serverPrefix, myNick, name, order);
    var end := Message(s.serverPrefix, RplEndofnames, [myNick, name, "End of NAMES list"]);
    SendJoinSays(env, s, name);
    var (t, ok) := SendJoin(env, s, name);
    var v := Rejoin(env, s, name, order);
    if !ok {
      SaysStop(env, s, t, join, names + [end] + LogOf(s.logs, name));
      assert join + (names + [end] + LogOf(s.logs, name)) ==
             RejoinMessages(s, name, order) + LogOf(s.logs, name);
    } else {
      JoinIsSaid(env, s, name);
      assert TouchClient(t, name) == t;
      SendNamesSay(env, t, name, myNick, order);
      NamesAreSaid(env, t, name, myNick, order);
      var (u, named) := SendNames(env, t, name, myNick, order);
      SaysBoth(env, s, t, u, join, names);
      if !named {
        SaysStop(env, s, u, join + names, [end] + LogOf(s.logs, name));
        assert (join + names) + ([end] + LogOf(s.logs, name)) ==
               RejoinMessages(s, name, order) + LogOf(s.logs, name);
      } else {
        assert EndOfNamesMessage(u, name) == end;
        SendThenReplaySays(env, u, end, name);
        EndSays(env, u, end, name, v);
        SaysBoth(env, s, u, v, join + names, [end] + LogOf(s.logs, name));
        assert (join + names) + ([end] + LogOf(s.logs, name)) ==
               RejoinMessages(s, name, order) + LogOf(s.logs, name);
      }
    }
  }

  /** A rejoin that fails at the end of the names does not begin its replay, which is as well. */
  lemma EndSays(env: Env, u: State, end: Message, name: string, v: State)
    requires u.client.open && Says(env, u, Replay(env, SendClient(env, u, end).0, name), [end] + LogOf(u.logs, name))
    requires v == if SendClient(env, u, end).1 then Replay(env, SendClient(env, u, end).0, name)
                  else SendClient(env, u, end).0
    ensures Says(env, u, v, [end] + LogOf(u.logs, name))
  {
    hide SendClient, Replay, Says;
    SendSays(env, u, end);
    Opens(env, u, SendClient(env, u, end).0, end);
    if !SendClient(env, u, end).1 {
      SaysStop(env, u, SendClient(env, u, end).0, [end], LogOf(u.logs, name));
    }
  }

  // ---- Every event, both sides -------------------------------------------------------------

  /** What one event adds to the two histories. */
  ghost predicate Adds(env: Env, s: State, t: State, toClient: seq<Message>, toServer: seq<Message>)
  {
    && t.toClient == s.toClient + Got(env, s.attempts, toClient)
    && t.toServer == s.toServer + toServer
  }

  lemma AddsNothing(env: Env, s: State, t: State)
    requires t.toClient == s.toClient && t.toServer == s.toServer
    ensures Adds(env, s, t, [], [])
  {
    assert s.toClient + [] == s.toClient && s.toServer + [] == s.toServer;
  }

  lemma SaysAdds(env: Env, s: State, t: State, u: State, ms: seq<Message>)
    requires Says(env, s, t, ms) && u.toClient == t.toClient && u.toServer == t.toServer
    ensures Adds(env, s, u, ms, [])
  {
    hide Got, AllThrough;
    assert s.toServer + [] == s.toServer;
  }

  lemma ServerSendAdds(env: Env, s: State, m: Message)
    requires s.server.open
    ensures Adds(env, s, SendServer(env, s, m).0, [], if env.writes(s.attempts) then [m] else [])
  {
    assert s.toClient + [] == s.toClient && s.toServer + [] == s.toServer;
  }

  lemma WelcomeBackAdds(env: Env, s: State)
    requires s.client.open && s.server.open
    ensures Adds(env, s, WelcomeBack(env, s), WelcomeLines(s),
                 if AllThrough(env, s.attempts, WelcomeLines(s) + [ASK_MOTD]) then [ASK_MOTD] else [])
  {
    hide SendAll, SendServer, Got;
    var ms := WelcomeLines(s);
    assert WelcomeMessages(s) == ms;
    SendAllSays(env, s, ms);
    ThroughBoth(env, s.attempts, ms, [ASK_MOTD]);
    assert AllThrough(env, s.attempts + 4, [ASK_MOTD]) <==> env.writes(s.attempts + 4) by {
      assert [ASK_MOTD][1..] == [];
    }
    var (t, ok) := SendAll(env, s, ms);
    if ok {
      AllGot(env, s.attempts, ms);
      var u := t.(client := t.client.(session := t.client.session.(id := t.server.session.id)));
      ServerSendAdds(env, u, ASK_MOTD);
      NothingGot(env, u.attempts);
    }
    assert s.toServer + [] == s.toServer;
    assert (s.toClient + ms) + [] == s.toClient + ms;
  }

  lemma NothingGot(env: Env, k: nat)
    ensures Got(env, k, []) == []
  {
  }

  lemma HandshakeAdds(env: Env, s: State, m: Message)
    requires s.client.open && s.server.open && IsValid(m) && !IsIn(s, m)
    ensures var t := s.(client := s.client.(session := SessionFromClient(s.client.session, m)));
            Adds(env, s, HandleHandshake(env, t, m), ClientScript(s, m, []), ToServer(env, s, ClientMessage(m, [], 0)))
  {
    hide WelcomeBack, SendServer, Adds, Validate, WelcomeLines, AllThrough;
    var t := s.(client := s.client.(session := SessionFromClient(s.client.session, m)));
    var u := HandleHandshake(env, t, m);
    assert t.client.session.flags.WantsWelcome() && (m.command.Pass? || m.command.User? || m.command.Nick?) <==>
           AsksIn(s, m);
    AddsNothing(env, s, s);
    ServerSendAdds(env, t, m);
    SameAdds(env, s, t, SendServer(env, t, m).0, [], if env.writes(s.attempts) then [m] else []);
    WelcomeBackAdds(env, t);
    assert WelcomeLines(t) == WelcomeLines(s) by { SameWelcome(s, t); }
    SameAdds(env, s, t, WelcomeBack(env, t), WelcomeLines(s),
             if AllThrough(env, s.attempts, WelcomeLines(s) + [ASK_MOTD]) then [ASK_MOTD] else []);
    AddsNothing(env, s, t);
    AddsNothing(env, s, Reset(t));
  }

  lemma SameWelcome(s: State, t: State)
    requires t == s.(client := t.client)
    ensures WelcomeLines(t) == WelcomeLines(s)
  {
  }

  lemma SameAdds(env: Env, s: State, t: State, u: State, toClient: seq<Message>, toServer: seq<Message>)
    requires Adds(env, t, u, toClient, toServer)
    requires t.toClient == s.toClient && t.toServer == s.toServer && t.attempts == s.attempts
    ensures Adds(env, s, u, toClient, toServer)
  {
  }

  lemma CommandAdds(env: Env, s: State, m: Message, order: seq<string>)
    requires s.client.open && s.server.open && IsValid(m) && IsIn(s, m)
    ensures var t := s.(client := s.client.(session := SessionFromClient(s.client.session, m)));
            Adds(env, s, HandleCommand(env, t, m, order), ClientScript(s, m, order),
                 ToServer(env, s, ClientMessage(m, order, 0)))
  {
    hide SendServer, SendClient, Rejoin, Adds, Validate, DropClient, RejoinMessages;
    var t := s.(client := s.client.(session := SessionFromClient(s.client.session, m)));
    AddsNothing(env, s, t);
    ServerSendAdds(env, t, m);
    SameAdds(env, s, t, SendServer(env, t, m).0, [], if env.writes(s.attempts) then [m] else []);
    match m.command
    case Ping =>
      SendSays(env, t, Answer(m));
      SaysAdds(env, t, SendClient(env, t, Answer(m)).0, SendClient(env, t, Answer(m)).0, [Answer(m)]);
      SameAdds(env, s, t, SendClient(env, t, Answer(m)).0, [Answer(m)], []);
    case Quit => DropAdds(env, s, t);
    case Join =>
      var name := m.Param(0);
      if name !in s.client.session.channels && name in s.server.session.channels {
        RejoinSays(env, t, name, order);
        var said := RejoinMessages(s, name, order) + LogOf(s.logs, name);
        assert RejoinMessages(t, name, order) == RejoinMessages(s, name, order) by { SameRejoin(s, m, name, order); }
        SaysAdds(env, t, Rejoin(env, t, name, order), Rejoin(env, t, name, order), said);
        SameAdds(env, s, t, Rejoin(env, t, name, order), said, []);
      }
    case _ =>
  }

  lemma DropAdds(env: Env, s: State, t: State)
    requires t.toClient == s.toClient && t.toServer == s.toServer
    ensures Adds(env, s, DropClient(t), [], []) && Adds(env, s, Reset(t), [], [])
  {
    AddsNothing(env, s, DropClient(t));
    AddsNothing(env, s, Reset(t));
  }

  lemma SameRejoin(s: State, m: Message, name: string, order: seq<string>)
    ensures var t := s.(client := s.client.(session := SessionFromClient(s.client.session, m)));
            RejoinMessages(t, name, order) == RejoinMessages(s, name, order)
  {
  }

  lemma ClientAdds(env: Env, s: State, m: Message, order: seq<string>)
    requires s.client.open && s.server.open
    ensures Adds(env, s, HandleClient(env, s, m, order), ClientScript(s, m, order),
                 ToServer(env, s, ClientMessage(m, order, 0)))
  {
    hide HandleHandshake, HandleCommand, SendClient, Adds, DropClient, RejoinMessages, WelcomeLines, AllThrough;
    match Validate(m)
    case Some(reply) =>
      SendSays(env, s, reply);
      var t := SendClient(env, s, reply).0;
      DropKeepsHistory(t);
      SaysAdds(env, s, t, DropClient(t), [reply]);
    case None =>
      var t := s.(client := s.client.(session := SessionFromClient(s.client.session, m)));
      assert t.client.session.flags.Done() <==> IsIn(s, m);
      if IsIn(s, m) { CommandAdds(env, s, m, order); } else { HandshakeAdds(env, s, m); }
  }

  lemma DropKeepsHistory(s: State)
    ensures DropClient(s).toClient == s.toClient && DropClient(s).toServer == s.toServer
  {
  }

  lemma OneSaid(env: Env, s: State, s': State, u: State, m: Message)
    requires s'.toClient == s.toClient && s'.toServer == s.toServer && s'.attempts == s.attempts
    requires s'.client.open
    requires var t := SendClient(env, s', m).0; u.toClient == t.toClient && u.toServer == t.toServer
    ensures Adds(env, s, u, [m], [])
  {
    hide SendClient, Adds, Says;
    SendSays(env, s', m);
    SaysAdds(env, s', SendClient(env, s', m).0, u, [m]);
    SameAdds(env, s, s', u, [m], []);
  }

  lemma ReplyAdds(env: Env, s: State, m: Message)
    requires s.client.open && s.server.open
    ensures Adds(env, s, HandleReply(env, s, m), ServerScript(s, m),
                 if m.command.Ping? && env.writes(s.attempts) then [Answer(m)] else [])
  {
    hide SendServer, SendClient, Replay, Reset, Adds, LastWord, Parse, NickOf;
    var u := HandleReply(env, s, m);
    AddsNothing(env, s, s);
    match m.command
    case Ping => ServerSendAdds(env, s, Answer(m));
    case Pong =>
    case RplWelcome =>
      var t := s.(serverPrefix := m.prefix);
      match Parse(LastWord(m.Param(1))) {
        case None => ResetKeepsHistory(t); AddsNothing(env, s, Reset(t));
        case Some(id) =>
          OneSaid(env, s, t.(server := t.server.(session := t.server.session.(id := id))), u, m);
      }
    case RplYourhost => OneSaid(env, s, s.(cache := s.cache.(yourhost := m.Param(1))), u, m);
    case RplCreated => OneSaid(env, s, s.(cache := s.cache.(created := m.Param(1))), u, m);
    case RplMyinfo =>
      var rest := if m.params == [] then [] else m.params[1..];
      OneSaid(env, s, s.(cache := s.cache.(myinfo := rest)), u, m);
    case RplEndofmotd | ErrNomotd => MotdAdds(env, s, m);
    case RplEndofnames =>
      SendThenReplaySays(env, s, m, m.Param(1));
      SaysAdds(env, s, u, u, [m] + LogOf(s.logs, m.Param(1)));
    case Privmsg | Notice | Join | Kick | Part | Quit | Nick =>
      RelayKeeps(env, s, m);
      OneSaid(env, s, s, Relay(env, s, m), m);
      AddsNothing(env, s, LogMessage(s, m));
    case RplMotdstart | RplMotd | RplNamereply | RplTopic
       | ErrNonicknamegiven | ErrErroneusnickname | ErrNicknameinuse | ErrNickcollision =>
      OneSaid(env, s, s, u, m);
    case _ =>
      RelayKeeps(env, s, m);
      OneSaid(env, s, s, Relay(env, s, m), m);
  }

  lemma ResetKeepsHistory(s: State)
    ensures Reset(s).toClient == s.toClient && Reset(s).toServer == s.toServer
  {
  }

  lemma RelayKeeps(env: Env, s: State, m: Message)
    ensures var t := SendClient(env, s, m).0;
            Relay(env, s, m).toClient == t.toClient && Relay(env, s, m).toServer == t.toServer
    ensures LogMessage(s, m).toClient == s.toClient && LogMessage(s, m).toServer == s.toServer
  {
    hide SendClient;
  }

  lemma MotdAdds(env: Env, s: State, m: Message)
    requires s.client.open && EndsMotd(m.command)
    ensures Adds(env, s, HandleReply(env, s, m), [m] + LogOf(s.logs, s.client.session.id.nick), [])
  {
    hide SendClient, Replay, Adds, Says, SessionFromServer;
    var t := SendClient(env, s, m).0;
    var nick := s.client.session.id.nick;
    Sent(env, s, m);
    IdStays(s.client.session, m);
    SendThenReplaySays(env, s, m, nick);
    if t.client.open {
      SaysAdds(env, s, HandleReply(env, s, m), HandleReply(env, s, m), [m] + LogOf(s.logs, nick));
    } else {
      SendSays(env, s, m);
      SaysStop(env, s, t, [m], LogOf(s.logs, nick));
      ReplayOfLogSays(env, t, t.client.session.id.nick);
      SaysAdds(env, s, t, HandleReply(env, s, m), [m] + LogOf(s.logs, nick));
    }
  }

  /** With no client there only the answer to a PING is written. */
  lemma AbsentAdds(env: Env, s: State, m: Message)
    requires !s.client.open && s.server.open
    ensures Adds(env, s, HandleReply(env, s, m), [],
                 if m.command.Ping? && env.writes(s.attempts) then [Answer(m)] else [])
  {
    hide SendServer, Replay, Adds, LastWord, Parse, NickOf;
    if m.command.Ping? {
      ServerSendAdds(env, s, Answer(m));
    } else {
      ReplayOfLogSays(env, s, s.client.session.id.nick);
      ReplayOfLogSays(env, s, m.Param(1));
      AddsNothing(env, s, HandleReply(env, s, m));
    }
  }

  lemma ServerAdds(env: Env, s: State, m: Message)
    requires s.server.open
    ensures var e := ServerMessage(m, 0);
            Adds(env, s, HandleServer(env, s, m), ToClient(s, e), ToServer(env, s, e))
  {
    hide HandleReply, Adds, IsValid, ServerScript, Reset;
    if !IsValid(m) {
      ResetKeepsHistory(s);
      AddsNothing(env, s, Reset(s));
    } else {
      var t := Track(s, m);
      assert t.client == s.client && t.server.open && t.attempts == s.attempts;
      assert ServerScript(t, m) == ServerScript(s, m) by { SameScript(s, m); }
      if s.client.open { ReplyAdds(env, t, m); } else { AbsentAdds(env, t, m); }
      SameAdds(env, s, t, HandleReply(env, t, m), ToClient(s, ServerMessage(m, 0)), ToServer(env, s, ServerMessage(m, 0)));
    }
  }

  lemma SameScript(s: State, m: Message)
    ensures ServerScript(Track(s, m), m) == ServerScript(s, m)
  {
    hide LastWord, Parse, NickOf, SessionFromServer;
  }

  /** The client's half of a tick. */
  lemma ClientTick(env: Env, s: State, now: int)
    requires s.client.open ==> s.server.open
    ensures var t := CheckClient(env, s, now);
            && Adds(env, s, t, if PingsClient(s, now) then [PING] else [], [])
            && t.attempts == s.attempts + (if PingsClient(s, now) then 1 else 0)
            && t.server == if LosesServer(env, s, now) && s.server.open then CLOSED else s.server
  {
    hide SendClient, SessionFromServer, Adds;
    var t := CheckClient(env, s, now);
    AddsNothing(env, s, s);
    DropAdds(env, s, s);
    if MustPing(s.client, now) {
      SendTries(env, s, PING);
      OneSaid(env, s, s, t, PING);
      PingLoses(env, s);
    }
  }

  lemma PingLoses(env: Env, s: State)
    requires s.client.open && s.server.open
    ensures SendClient(env, s, PING).0.server ==
            if !env.writes(s.attempts) && !s.server.session.flags.Done() then CLOSED else s.server
  {
  }

  /** The server's half. */
  lemma ServerTick(env: Env, s: State, now: int)
    ensures var pings := s.server.open && !s.server.pingSent && now > s.server.pingDeadline;
            Adds(env, s, CheckServer(env, s, now), [], if pings && env.writes(s.attempts) then [PING] else [])
  {
    hide SessionFromClient;
    assert s.toClient + [] == s.toClient && s.toServer + [] == s.toServer;
  }

  lemma TickAdds(env: Env, s: State, clientNow: int, serverNow: int)
    requires s.client.open ==> s.server.open
    ensures var e := Tick(clientNow, serverNow);
            Adds(env, s, Step(env, s, e), ToClient(s, e), ToServer(env, s, e))
  {
    hide CheckClient, CheckServer, Got;
    var t := CheckClient(env, s, clientNow);
    ClientTick(env, s, clientNow);
    ServerTick(env, t, serverNow);
    NothingGot(env, t.attempts);
    assert t.toClient + [] == t.toClient && s.toServer + [] == s.toServer;
  }

  /** Every event: the client is written its script up to the first failing write, the server
      exactly what `ToServer` says. */
  lemma StepAdds(env: Env, s: State, e: Event)
    requires Enabled(s, e) && (s.client.open ==> s.server.open)
    ensures Adds(env, s, Step(env, s, e), ToClient(s, e), ToServer(env, s, e))
  {
    hide HandleClient, HandleServer, CheckClient, CheckServer, Adds, DropClient, Reset, ClientScript, ServerScript,
         WelcomeLines, AllThrough, IsValid, Enumerates;
    match e
    case ClientMessage(m, order, now) =>
      var t := s.(client := Renewed(env, s.client, now));
      ClientAdds(env, t, m, order);
      RenewedScript(env, s, m, order, now);
      SameAdds(env, s, t, Step(env, s, e), ToClient(s, e), ToServer(env, s, e));
    case ServerMessage(m, now) =>
      var t := s.(server := Renewed(env, s.server, now));
      ServerAdds(env, t, m);
      assert ServerScript(t, m) == ServerScript(s, m) by { RenewedServerScript(env, s, m, now); }
      SameAdds(env, s, t, Step(env, s, e), ToClient(s, e), ToServer(env, s, e));
    case Tick(clientNow, serverNow) => TickAdds(env, s, clientNow, serverNow);
    case ClientClosed(now) => DropAdds(env, s, s.(client := Renewed(env, s.client, now)));
    case ServerClosed(now) => DropAdds(env, s, s.(server := Renewed(env, s.server, now)));
    case NewClient(connected, clientNow, serverNow) =>
      ConnectKeepsHistory(env, s, connected, clientNow, serverNow);
      AddsNothing(env, s, Step(env, s, e));
    case Stop => DropAdds(env, s, s);
  }

  lemma RenewedScript(env: Env, s: State, m: Message, order: seq<string>, now: int)
    ensures var t := s.(client := Renewed(env, s.client, now));
            && ClientScript(t, m, order) == ClientScript(s, m, order)
            && ToServer(env, t, ClientMessage(m, order, 0)) == ToServer(env, s, ClientMessage(m, order, now))
  {
    hide AllThrough, NamesMessages, Print;
  }

  lemma RenewedServerScript(env: Env, s: State, m: Message, now: int)
    ensures ServerScript(s.(server := Renewed(env, s.server, now)), m) == ServerScript(s, m)
  {
    hide LastWord, Parse, NickOf;
  }

  lemma ConnectKeepsHistory(env: Env, s: State, connected: bool, clientNow: int, serverNow: int)
    ensures var t := Connect(env, s, connected, clientNow, serverNow);
            t.toClient == s.toClient && t.toServer == s.toServer
  {
  }

  // ---- Over runs ----------------------------------------------------------------------------

  function AllToServer(env: Env, states: seq<State>, events: seq<Event>, i: nat): seq<Message>
    requires i <= |events| <= |states|
  {
    if i == 0 then []
    else AllToServer(env, states, events, i - 1) + ToServer(env, states[i - 1], events[i - 1])
  }

  function AllToClient(env: Env, states: seq<State>, events: seq<Event>, i: nat): seq<Message>
    requires i <= |events| <= |states|
  {
    if i == 0 then []
    else
      AllToClient(env, states, events, i - 1)
      + Got(env, states[i - 1].attempts, ToClient(states[i - 1], events[i - 1]))
  }

  /** Over every run: what was written to servers is exactly the messages forwarded, the answers
      to their PINGs, the requests for the message of the day and our own PINGs, in the
      order of the events; and what was written to clients is their scripts, each up to
      its first failing write. */
  lemma {:induction false} RunsSay(env: Env, states: seq<State>, events: seq<Event>, logs: Log, i: nat)
    requires IsRun(env, states, events) && states[0] == Initial(logs) && WellKept(logs) && i <= |events|
    ensures states[i].toServer == AllToServer(env, states, events, i)
    ensures states[i].toClient == AllToClient(env, states, events, i)
  {
    hide Step, Enabled, ToServer, ToClient, Got;
    if i > 0 {
      RunsSay(env, states, events, logs, i - 1);
      RunIsSafe(env, states, events, logs, i - 1);
      StepAdds(env, states[i - 1], events[i - 1]);
      assert states[i] == Step(env, states[i - 1], events[i - 1]);
    }
  }

  // ---- What that comes to ---------------------------------------------------------------------

  /** A PING from the server is answered, and nothing else it says is. */
  lemma PingIsAnswered(env: Env, s: State, m: Message)
    requires s.server.open && IsValid(m)
    ensures HandleServer(env, s, m).toServer ==
            s.toServer + if m.command.Ping? && env.writes(s.attempts) then [Message("", Pong, m.params)] else []
    ensures m.command.Ping? ==> HandleServer(env, s, m).toClient == s.toClient
  {
    hide HandleServer, IsValid;
    ServerAdds(env, s, m);
    NothingGot(env, s.attempts);
    assert s.toClient + [] == s.toClient;
  }

  /** What is neither kept in logs nor part of the keepalive is shown to an open client, at
      once, if the write works. */
  lemma ShownAtOnce(env: Env, s: State, m: Message)
    requires s.client.open && s.server.open && env.writes(s.attempts)
    requires IsValid(m) && !Loggable(m.command) && !m.command.Ping? && !m.command.Pong?
    requires m.command.Quit? ==> s.client.session.flags.Done()
    requires m.command.RplWelcome? ==> Parse(LastWord(m.Param(1))).Some?
    ensures var t := HandleServer(env, s, m); s.toClient + [m] <= t.toClient
  {
    hide HandleServer, IsValid, LastWord, Parse;
    ServerAdds(env, s, m);
    var script := ServerScript(s, m);
    assert script != [] && script[0] == m;
    assert Got(env, s.attempts, script)[0] == m;
  }

  /** What a registered client says reaches the server, but for its part in the keepalive, its
      QUIT, and JOINs of channels that one side has it in; its PING is answered. */
  lemma ForwardedExactly(env: Env, s: State, m: Message, order: seq<string>)
    requires s.client.open && s.server.open && s.client.session.flags.Done() && IsValid(m)
    requires env.writes(s.attempts)
    ensures var t := HandleClient(env, s, m, order);
            && (t.toServer == s.toServer + [m] <==> IsForwarded(s, m))
            && (t.toServer == s.toServer <==> !IsForwarded(s, m))
            && (m.command.Ping? ==> t.toClient == s.toClient + [Message("", Pong, m.params)])
  {
    hide HandleClient, RejoinMessages, Validate;
    ClientAdds(env, s, m, order);
    assert s.toServer + [m] != s.toServer && s.toServer + [] == s.toServer;
    assert [Answer(m)][1..] == [] && [Answer(m)][..1] == [Answer(m)];
    assert Through(env, s.attempts + 1, []) == 0;
  }

  /** A client that registers while the server's handshake is finished has nothing forwarded; the
      message that completes its USER and NICK is followed by the welcome and a request for
      the message of the day, which is what completes its registration. */
  lemma MotdIsAsked(env: Env, s: State, m: Message, order: seq<string>)
    requires s.client.open && s.server.open && s.server.session.flags.Done()
    requires IsValid(m) && !s.client.session.flags.Done() && !IsIn(s, m)
    requires forall k :: env.writes(k)
    ensures var t := HandleClient(env, s, m, order);
            if AsksIn(s, m) && s.haveCache then
              t.toClient == s.toClient + WelcomeLines(s) && t.toServer == s.toServer + [Message("", Motd, [])]
            else t.toClient == s.toClient && t.toServer == s.toServer
  {
    hide HandleClient, Validate, WelcomeLines;
    ClientAdds(env, s, m, order);
    AllWritten(env, s.attempts, WelcomeLines(s));
    AllWritten(env, s.attempts, WelcomeLines(s) + [ASK_MOTD]);
    NothingGot(env, s.attempts);
    assert s.toServer + [] == s.toServer && s.toClient + [] == s.toClient;
  }

  lemma {:induction false} AllWritten(env: Env, k: nat, ms: seq<Message>)
    requires forall i :: env.writes(i)
    ensures AllThrough(env, k, ms) && Got(env, k, ms) == ms
    decreases |ms|
  {
    if ms != [] { AllWritten(env, k + 1, ms[1..]); }
  }

  /** The end of the message of the day completes it: the client is registered, and has been
      written what was logged for its nick. */
  lemma MotdCompletes(env: Env, s: State, m: Message)
    requires s.client.open && s.server.open && EndsMotd(m.command) && IsValid(m)
    requires s.client.session.flags.haveUser && s.client.session.flags.haveNick
    requires forall k :: env.writes(k)
    ensures var t, nick := HandleServer(env, s, m), s.client.session.id.nick;
            && t.client.open && t.client.session.flags.Done()
            && t.toClient == s.toClient + [m] + LogOf(s.logs, nick) && LogOf(t.logs, nick) == []
  {
    hide Replay, SendClient, Says, SessionFromServer;
    var t, nick := Track(s, m), s.client.session.id.nick;
    ServerAdds(env, s, m);
    AllWritten(env, s.attempts, [m] + LogOf(s.logs, nick));
    assert s.toClient + ([m] + LogOf(s.logs, nick)) == s.toClient + [m] + LogOf(s.logs, nick);
    Sent(env, t, m);
    IdStays(s.client.session, m);
    EndIsDone(s.client.session, m);
    var u := SendClient(env, t, m).0;
    SurvivedReplay(env, u, nick);
  }

  lemma EndIsDone(s: SessionView, m: Message)
    requires EndsMotd(m.command) && s.flags.haveUser && s.flags.haveNick
    ensures SessionFromServer(s, m).flags.Done()
  {
    hide ChannelsAfter, NickOf;
  }

  lemma SurvivedReplay(env: Env, s: State, name: string)
    requires s.client.open && s.client.session.flags.Done() && forall k :: env.writes(k)
    ensures var t := Replay(env, s, name);
            t.client.open && t.client.session.flags.Done() && LogOf(t.logs, name) == []
  {
    hide ReplayFrom, Says;
    var ms := LogOf(s.logs, name);
    assert ms[0..] == ms;
    ReplaySays(env, s, name, ms, 0);
    AllWritten(env, s.attempts, ms);
    assert Replay(env, s, name).client.open by { SaysOpen(env, s, Replay(env, s, name), ms); }
    ReplayWrites(env, s, name, ms, 0);
    ReplayKeepsDone(env, s, name, ms, 0);
  }

  lemma SaysOpen(env: Env, s: State, t: State, ms: seq<Message>)
    requires Says(env, s, t, ms) && AllThrough(env, s.attempts, ms)
    ensures t.client.open
  {
  }

  lemma {:induction false} ReplayKeepsDone(env: Env, s: State, name: string, ms: seq<Message>, i: nat)
    requires i <= |ms| && s.client.session.flags.Done()
    ensures ReplayFrom(env, s, name, ms, i).client.open ==>
              ReplayFrom(env, s, name, ms, i).client.session.flags.Done()
    decreases |ms| - i
  {
    hide SendClient, SessionFromServer;
    if i < |ms| {
      Sent(env, s, ms[i]);
      DoneStays(s.client.session, ms[i]);
      var (t, ok) := SendClient(env, s, ms[i]);
      if ok {
        var u := t.(ledger := t.ledger.(replayed := t.ledger.replayed + multiset{ms[i]}));
        ReplayKeepsDone(env, u, name, ms, i + 1);
      }
    }
  }

  /** Over every run: whenever a client has given a user and a nick not refused since, and the
      end of the message of the day comes for it, its registration is complete, and it has
      been written what was logged for its nick. */
  lemma RegistrationEnds(env: Env, states: seq<State>, events: seq<Event>, logs: Log, i: nat)
    requires IsRun(env, states, events) && states[0] == Initial(logs) && WellKept(logs) && i < |events|
    requires events[i].ServerMessage? && EndsMotd(events[i].message.command) && IsValid(events[i].message)
    requires states[i].client.open && forall k :: env.writes(k)
    requires HasUser(Dialogue(states, events, i)) && HasNick(Dialogue(states, events, i))
    ensures var s, t, nick := states[i], states[i + 1], states[i].client.session.id.nick;
            && t.client.open && t.client.session.flags.Done()
            && t.toClient == s.toClient + [events[i].message] + LogOf(s.logs, nick) && LogOf(t.logs, nick) == []
  {
    hide Step, Enabled, HasUser, HasNick, HasEnd, Dialogue, FlagsAfterAll, HandleServer, IsValid;
    var said := Dialogue(states, events, i);
    FlagsFollowDialogue(env, states, events, logs, i);
    FlagsByHistory(said);
    RunIsSafe(env, states, events, logs, i);
    var s := states[i].(server := Renewed(env, states[i].server, events[i].now));
    MotdCompletes(env, s, events[i].message);
    assert Step(env, states[i], events[i]) == HandleServer(env, s, events[i].message) by {
      MessageStep(env, states[i], events[i]);
    }
    assert states[i + 1] == Step(env, states[i], events[i]);
  }

  lemma MessageStep(env: Env, s: State, e: Event)
    requires e.ServerMessage?
    ensures Step(env, s, e) == HandleServer(env, s.(server := Renewed(env, s.server, e.now)), e.message)
  {
  }

  // ---- Whose JOIN a rejoin begins with ---------------------------------------------------------

  /** Our own nick is among those the session lists for the channel. */
  predicate ListsUs(s: SessionView, name: string)
  {
    name in s.channels && s.id.nick in s.channels[name].users
  }

  lemma ListsUsStill(s: SessionView, m: Message, name: string)
    requires ListsUs(s, name) && !Departs(s.id, m, name)
    requires !(m.command.Quit? && NickOf(m.prefix) == Some(s.id.nick))
    ensures ListsUs(SessionFromServer(s, m), name)
  {
    hide NickOf, NamesIn, SessionFromServer;
    OneChannel(s, m, name);
    IdFollows(s, m);
  }

  lemma {:induction false} NamesKeepUs(env: Env, s: State, name: string, myNick: string, nicks: seq<string>)
    requires ListsUs(s.client.session, name)
    ensures var (t, ok) := SendNames(env, s, name, myNick, nicks);
            ok ==> ListsUs(t.client.session, name) && t.client.session.id == s.client.session.id
    decreases |nicks|
  {
    hide SendClient, SessionFromServer;
    if nicks != [] {
      var m := NamesMessage(s.serverPrefix, myNick, name, nicks[0]);
      Sent(env, s, m);
      ListsUsStill(s.client.session, m, name);
      IdStays(s.client.session, m);
      var (t, ok) := SendClient(env, s, m);
      if ok { NamesKeepUs(env, AddClientUser(t, name, nicks[0]), name, myNick, nicks[1..]); }
    }
  }

  lemma {:induction false} ReplayKeepsUs(env: Env, s: State, name: string, ms: seq<Message>, i: nat)
    requires ListsUs(s.client.session, name) && i <= |ms|
    requires forall m | m in ms :: m.Param(0) == name && !m.command.Quit?
    requires NeverLeaves(s.client.session.id, ms, i, name)
    ensures var t := ReplayFrom(env, s, name, ms, i); t.client.open ==> ListsUs(t.client.session, name)
    decreases |ms| - i
  {
    hide SendClient, SessionFromServer, ListsUs, IdAfter, NickOf;
    if i < |ms| {
      assert ms[i] in ms;
      Sent(env, s, ms[i]);
      ListsUsStill(s.client.session, ms[i], name);
      IdFollows(s.client.session, ms[i]);
      var (t, ok) := SendClient(env, s, ms[i]);
      if ok {
        var u := t.(ledger := t.ledger.(replayed := t.ledger.replayed + multiset{ms[i]}));
        ReplayKeepsUs(env, u, name, ms, i + 1);
      }
    }
  }

  /** A client with a well-formed identity that survives a rejoin has first been told that it
      is itself that joins. */
  lemma OwnJoinComesFirst(env: Env, s: State, name: string, order: seq<string>)
    requires s.client.open && WellFormed(s.client.session.id)
    ensures var t := Rejoin(env, s, name, order);
            t.client.open ==>
              && |t.toClient| > |s.toClient|
              && var m := t.toClient[|s.toClient|];
                 m.command.Join? && m.params == [name] && IsMe(s.client.session, m.prefix)
  {
    hide Rejoin, NamesMessages, Print, Parse;
    RejoinIsSaid(env, s, name, order);
    PrintedParsesBack(s.client.session.id);
    var said := RejoinMessages(s, name, order) + LogOf(s.logs, name);
    assert (s.toClient + RejoinMessages(s, name, order) + LogOf(s.logs, name))[|s.toClient|] ==
           Message(Print(s.client.session.id), Join, [name]);
  }

  /** And unless the log takes it out of the channel, it sees itself there in the end, under
      whatever nick the log leaves it with. */
  lemma OwnNickIsShown(env: Env, s: State, name: string, order: seq<string>)
    requires s.client.open && WellFormed(s.client.session.id) && WellKept(s.logs)
    requires NeverLeaves(s.client.session.id, LogOf(s.logs, name), 0, name)
    ensures var t := Rejoin(env, s, name, order);
            t.client.open ==> ListsUs(t.client.session, name)
  {
    hide SendClient, SendNames, SendJoin, ReplayFrom, NeverLeaves, Print, EndOfNamesMessage, ListsUs, WellFormed, WellKept;
    JoinListsUs(env, s, name);
    FailedJoinCloses(env, s, name);
    var (t, ok) := SendJoin(env, s, name);
    if ok {
      JoinIsSaid(env, s, name);
      assert TouchClient(t, name) == t by { ListedIsHeld(t, name); }
      var myNick := t.server.session.id.nick;
      NamesKeepUs(env, t, name, myNick, order);
      NamesAreSaid(env, t, name, myNick, order);
      FailedNamesClose(env, t, name, myNick, order);
      var (u, named) := SendNames(env, t, name, myNick, order);
      if named {
        var m := EndOfNamesMessage(u, name);
        assert m.command == RplEndofnames by { EndOfNamesIsEnd(u, name); }
        Sent(env, u, m);
        ListsUsStill(u.client.session, m, name);
        IdStays(u.client.session, m);
        var v := SendClient(env, u, m).0;
        LogHoldsNoQuit(s.logs, name);
        if v.client.open { ReplayKeepsUs(env, v, name, LogOf(v.logs, name), 0); }
      }
    }
  }

  lemma ListedIsHeld(s: State, name: string)
    requires ListsUs(s.client.session, name)
    ensures TouchClient(s, name) == s
  {
  }

  lemma LogHoldsNoQuit(logs: Log, name: string)
    requires WellKept(logs)
    ensures forall m | m in LogOf(logs, name) :: m.Param(0) == name && !m.command.Quit?
  {
    forall m | m in LogOf(logs, name) ensures m.Param(0) == name && !m.command.Quit? {
      assert Loggably(name, m);
    }
  }

  lemma JoinListsUs(env: Env, s: State, name: string)
    requires s.client.open && WellFormed(s.client.session.id)
    ensures var (t, ok) := SendJoin(env, s, name);
            ok ==> ListsUs(t.client.session, name) && t.client.session.id == s.client.session.id
  {
    hide SendClient, SessionFromServer, Print, Parse, WellFormed;
    PrintedParsesBack(s.client.session.id);
    var s', m := TouchPreLog(s, name), JoinMessage(s, name);
    Sent(env, s', m);
    OneChannel(s.client.session, m, name);
    IdStays(s.client.session, m);
    var (t, ok) := SendClient(env, s', m);
    if ok && ChannelIn(t.preLog.channels, name).topic != "" {
      var m' := TopicMessage(t, name);
      Sent(env, t, m');
      ListsUsStill(t.client.session, m', name);
      IdStays(t.client.session, m');
    }
  }
}

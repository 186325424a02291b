/** What a client that reconnects is welcomed with. */
module Reconnecting {
  import opened Text
  import opened Messages
  import opened ClientIds
  import opened Views
  import opened Logs
  import opened Machine

  /** The same message, said by `prefix` to `nick`. */
  function Readdressed(m: Message, prefix: string, nick: string): Message
  {
    m.(prefix := prefix, params := if m.params == [] then [nick] else [nick] + m.params[1..])
  }

  /** A client that reconnects gets the part of the welcome sequence that the server will not
      repeat as the server sent it, readdressed to the nick we now have: what is kept of
      each of the three messages is enough, provided RPL_YOURHOST and RPL_CREATED came
      with just the two parameters they are due. */
  lemma WelcomeRepeatsServer(env: Env, s: State, yourhost: Message, created: Message, myinfo: Message, t: State)
    requires yourhost.command.RplYourhost? && created.command.RplCreated? && myinfo.command.RplMyinfo?
    requires IsValid(yourhost) && IsValid(created) && IsValid(myinfo)
    requires t.cache ==
             HandleReply(env, HandleReply(env, HandleReply(env, s, yourhost), created), myinfo).cache
    ensures var prefix, nick := t.serverPrefix, t.server.session.id.nick;
            && (WelcomeMessages(t)[1] == Readdressed(yourhost, prefix, nick) <==> |yourhost.params| == 2)
            && (WelcomeMessages(t)[2] == Readdressed(created, prefix, nick) <==> |created.params| == 2)
            && WelcomeMessages(t)[3] == Readdressed(myinfo, prefix, nick)
  {
    hide SendClient;
    CacheIsKept(env, s, yourhost);
    var u := HandleReply(env, s, yourhost);
    CacheIsKept(env, u, created);
    CacheIsKept(env, HandleReply(env, u, created), myinfo);
  }

  lemma CacheIsKept(env: Env, s: State, m: Message)
    ensures m.command.RplYourhost? ==>
              HandleReply(env, s, m).cache == s.cache.(yourhost := m.Param(1))
    ensures m.command.RplCreated? ==>
              HandleReply(env, s, m).cache == s.cache.(created := m.Param(1))
    ensures m.command.RplMyinfo? && m.params != [] ==>
              HandleReply(env, s, m).cache == s.cache.(myinfo := m.params[1..])
  {
    hide SessionFromServer;
  }

  /** If all of it reaches the client, the client goes by the server's idea of who we are,
      and the history shows the four messages in order, before anything else. */
  lemma WelcomeBackCompletes(env: Env, s: State)
    requires s.client.open && s.server.session.flags.Done()
    ensures var (t, ok) := SendAll(env, s, WelcomeMessages(s));
            ok ==> t.toClient == s.toClient + WelcomeMessages(s) && t.server == s.server
    ensures var u := WelcomeBack(env, s);
            u.client.open ==> u.client.session.id == s.server.session.id
                              && u.toClient == s.toClient + WelcomeMessages(s)
  {
    hide SendAll, SendServer, WelcomeMessages;
    SentInOrder(env, s, WelcomeMessages(s));
    var (t, ok) := SendAll(env, s, WelcomeMessages(s));
    if ok {
      var u := t.(client := t.client.(session := t.client.session.(id := t.server.session.id)));
      assert SendServer(env, u, Message("", Motd, [])).0.client.open ==>
          SendServer(env, u, Message("", Motd, [])).0.client == u.client
          && SendServer(env, u, Message("", Motd, [])).0.toClient == u.toClient by {
        ServerSendKeepsClient(env, u, Message("", Motd, []));
      }
    }
  }

  lemma ServerSendKeepsClient(env: Env, s: State, m: Message)
    ensures var t := SendServer(env, s, m).0;
            t.toClient == s.toClient && (t.client.open ==> t.client == s.client)
  {
  }

  lemma {:induction false} SentInOrder(env: Env, s: State, ms: seq<Message>)
    requires s.client.open && s.server.session.flags.Done()
    ensures var (t, ok) := SendAll(env, s, ms);
            && (ok ==> t.toClient == s.toClient + ms && t.client.open)
            && (!ok ==> !t.client.open)
            && t.server == s.server
    decreases |ms|
  {
    hide SessionFromServer;
    if ms != [] {
      var (t, ok) := SendClient(env, s, ms[0]);
      if ok { SentInOrder(env, t, ms[1..]); }
    }
  }

  // ---- Who we are ----------------------------------------------------------------------------

  /** The last word of a text is what follows its last space. */
  lemma LastWordIs(text: string, word: string)
    requires ' ' !in word
    ensures LastWord(text + " " + word) == word && LastWord(word) == word
  {
    SplitEnd(text, word, ' ');
    SplitWhole(word, ' ');
    assert text + " " + word == text + [' '] + word;
  }

  /** A welcome that ends with an identity gives it to us, on both sides. */
  lemma WelcomeTakesId(env: Env, s: State, m: Message, text: string, id: ClientId)
    requires m.command.RplWelcome? && IsValid(m) && m.Param(1) == text + " " + Print(id)
    requires WellFormed(id) && ' ' !in Print(id) && s.server.open
    requires s.client.open ==> env.writes(s.attempts)
    ensures var t := HandleServer(env, s, m);
            && t.server.session.id == id && t.serverPrefix == m.prefix
            && (s.client.open ==> t.client.open && t.client.session.id == id)
  {
    hide LastWord, Parse, Print, SessionFromServer, IsValid, WellFormed;
    LastWordIs(text, Print(id));
    PrintedParsesBack(id);
  }

  // ---- What is kept of the welcome ---------------------------------------------------------------

  predicate SameCache(s: State, t: State)
  {
    t.haveCache == s.haveCache && t.cache == s.cache && t.serverPrefix == s.serverPrefix
  }

  lemma SendKeepsCache(env: Env, s: State, m: Message)
    ensures SameCache(s, SendClient(env, s, m).0) && SameCache(s, SendServer(env, s, m).0)
  {
    hide SessionFromServer, SessionFromClient;
  }

  lemma {:induction false} SendAllKeepsCache(env: Env, s: State, ms: seq<Message>)
    ensures SameCache(s, SendAll(env, s, ms).0)
    decreases |ms|
  {
    hide SendClient;
    if ms != [] {
      SendKeepsCache(env, s, ms[0]);
      SendAllKeepsCache(env, SendClient(env, s, ms[0]).0, ms[1..]);
    }
  }

  lemma {:induction false} SendNamesKeepsCache(env: Env, s: State, name: string, myNick: string, nicks: seq<string>)
    ensures SameCache(s, SendNames(env, s, name, myNick, nicks).0)
    decreases |nicks|
  {
    hide SendClient;
    if nicks != [] {
      var m := NamesMessage(s.serverPrefix, myNick, name, nicks[0]);
      SendKeepsCache(env, s, m);
      var t := SendClient(env, s, m).0;
      SendNamesKeepsCache(env, AddClientUser(t, name, nicks[0]), name, myNick, nicks[1..]);
    }
  }

  lemma {:induction false} ReplayKeepsCache(env: Env, s: State, name: string, ms: seq<Message>, i: nat)
    requires i <= |ms|
    ensures SameCache(s, ReplayFrom(env, s, name, ms, i))
    decreases |ms| - i
  {
    hide SendClient;
    if i < |ms| {
      SendKeepsCache(env, s, ms[i]);
      var (t, ok) := SendClient(env, s, ms[i]);
      if ok {
        var u := t.(ledger := t.ledger.(replayed := t.ledger.replayed + multiset{ms[i]}));
        ReplayKeepsCache(env, u, name, ms, i + 1);
      }
    }
  }

  lemma RejoinKeepsCache(env: Env, s: State, name: string, order: seq<string>)
    ensures SameCache(s, Rejoin(env, s, name, order))
  {
    hide SendClient, SendNames, ReplayFrom, JoinMessage, TopicMessage, EndOfNamesMessage;
    SendKeepsCache(env, TouchPreLog(s, name), JoinMessage(s, name));
    var t := SendClient(env, TouchPreLog(s, name), JoinMessage(s, name)).0;
    SendKeepsCache(env, t, TopicMessage(t, name));
    var u := SendJoin(env, s, name).0;
    SendNamesKeepsCache(env, TouchClient(u, name), name, u.server.session.id.nick, order);
    var v := SendNames(env, TouchClient(u, name), name, u.server.session.id.nick, order).0;
    SendKeepsCache(env, v, EndOfNamesMessage(v, name));
    var w := SendClient(env, v, EndOfNamesMessage(v, name)).0;
    ReplayKeepsCache(env, w, name, LogOf(w.logs, name), 0);
  }

  lemma HandleClientKeepsCache(env: Env, s: State, m: Message, order: seq<string>)
    ensures SameCache(s, HandleClient(env, s, m, order))
  {
    hide SendClient, SendServer, SendAll, Rejoin, SessionFromClient, Validate, WelcomeMessages;
    match Validate(m)
    case Some(reply) => SendKeepsCache(env, s, reply);
    case None =>
      var t := s.(client := s.client.(session := SessionFromClient(s.client.session, m)));
      SendKeepsCache(env, t, m);
      SendKeepsCache(env, t, m.(prefix := "", command := Pong));
      RejoinKeepsCache(env, t, m.Param(0), order);
      SendAllKeepsCache(env, t, WelcomeMessages(t));
      var u := SendAll(env, t, WelcomeMessages(t)).0;
      SendKeepsCache(env, u.(client := u.client.(session := u.client.session.(id := u.server.session.id))),
                     Message("", Motd, []));
  }

  /** The state with what a message from the server leaves to be kept. */
  function Kept(s: State, m: Message): State
  {
    match m.command
    case RplWelcome => s.(serverPrefix := m.prefix)
    case RplYourhost => s.(cache := s.cache.(yourhost := m.Param(1)))
    case RplCreated => s.(cache := s.cache.(created := m.Param(1)))
    case RplMyinfo => s.(cache := s.cache.(myinfo := if m.params == [] then [] else m.params[1..]), haveCache := true)
    case _ => s
  }

  lemma HandleReplyKeepsCache(env: Env, s: State, m: Message)
    ensures SameCache(Kept(s, m), HandleReply(env, s, m))
  {
    hide SendClient, SendServer, ReplayFrom, LastWord, Parse, IsMe;
    SendKeepsCache(env, s, m);
    SendKeepsCache(env, s, m.(prefix := "", command := Pong));
    match m.command
    case RplYourhost => SendKeepsCache(env, s.(cache := s.cache.(yourhost := m.Param(1))), m);
    case RplCreated => SendKeepsCache(env, s.(cache := s.cache.(created := m.Param(1))), m);
    case RplMyinfo =>
      var rest := if m.params == [] then [] else m.params[1..];
      SendKeepsCache(env, s.(cache := s.cache.(myinfo := rest)), m);
    case RplWelcome =>
      var t := s.(serverPrefix := m.prefix);
      match Parse(LastWord(m.Param(1))) {
        case None =>
        case Some(id) => SendKeepsCache(env, t.(server := t.server.(session := t.server.session.(id := id))), m);
      }
    case RplEndofmotd | ErrNomotd =>
      var t := SendClient(env, s, m).0;
      ReplayKeepsCache(env, t, t.client.session.id.nick, LogOf(t.logs, t.client.session.id.nick), 0);
    case RplEndofnames =>
      var t := SendClient(env, s, m).0;
      ReplayKeepsCache(env, t, m.Param(1), LogOf(t.logs, m.Param(1)), 0);
    case _ =>
  }

  lemma StepKeepsCache(env: Env, s: State, e: Event)
    ensures SameCache(if e.ServerMessage? && IsValid(e.message) then Kept(s, e.message) else s, Step(env, s, e))
  {
    hide HandleClient, HandleReply, SendClient, SendServer, SessionFromServer, IsValid;
    match e
    case ClientMessage(m, order, now) =>
      HandleClientKeepsCache(env, s.(client := Renewed(env, s.client, now)), m, order);
    case ServerMessage(m, now) =>
      HandleReplyKeepsCache(env, Track(s.(server := Renewed(env, s.server, now)), m), m);
    case Tick(clientNow, serverNow) =>
      SendKeepsCache(env, s, PING);
      SendKeepsCache(env, CheckClient(env, s, clientNow), PING);
    case _ =>
  }

  /** The last of the valid messages from the server with command `c`, among the first `i`
      events. */
  function LastOf(events: seq<Event>, i: nat, c: Command): Option<Message>
    requires i <= |events|
  {
    if i == 0 then None
    else if events[i - 1].ServerMessage? && IsValid(events[i - 1].message) && events[i - 1].message.command == c
    then Some(events[i - 1].message)
    else LastOf(events, i - 1, c)
  }

  /** What is kept in `s` is the last that the server said of each part, on whatever connection:
      its prefix, the second parameter of two messages, and all but the first of the last,
      which is what is waited for. */
  predicate KeepsLast(s: State, events: seq<Event>, i: nat)
    requires i <= |events|
  {
    && s.serverPrefix == (match LastOf(events, i, RplWelcome) case Some(m) => m.prefix case None => "")
    && s.cache.yourhost == (match LastOf(events, i, RplYourhost) case Some(m) => m.Param(1) case None => "")
    && s.cache.created == (match LastOf(events, i, RplCreated) case Some(m) => m.Param(1) case None => "")
    && (s.haveCache <==> LastOf(events, i, RplMyinfo).Some?)
    && s.cache.myinfo == (match LastOf(events, i, RplMyinfo)
                          case Some(m) => if m.params == [] then [] else m.params[1..]
                          case None => [])
  }

  lemma KeepsLastStep(s: State, t: State, events: seq<Event>, i: nat)
    requires i < |events| && KeepsLast(s, events, i)
    requires var e := events[i];
             SameCache(if e.ServerMessage? && IsValid(e.message) then Kept(s, e.message) else s, t)
    ensures KeepsLast(t, events, i + 1)
  {
    hide IsValid, LastOf;
    LastOfStep(events, i, RplWelcome);
    LastOfStep(events, i, RplYourhost);
    LastOfStep(events, i, RplCreated);
    LastOfStep(events, i, RplMyinfo);
  }

  lemma LastOfStep(events: seq<Event>, i: nat, c: Command)
    requires i < |events|
    ensures LastOf(events, i + 1, c) ==
            if events[i].ServerMessage? && IsValid(events[i].message) && events[i].message.command == c
            then Some(events[i].message) else LastOf(events, i, c)
  {
  }

  /** Over every run, a welcome is repeated from the last that the server said of it. */
  lemma {:induction false} CacheByHistory(
    env: Env, states: seq<State>, events: seq<Event>, logs: Log, i: nat)
    requires IsRun(env, states, events) && states[0] == Initial(logs) && i <= |events|
    ensures KeepsLast(states[i], events, i)
  {
    hide Step, Enabled, IsValid, Kept, SameCache;
    if i > 0 {
      hide KeepsLast;
      CacheByHistory(env, states, events, logs, i - 1);
      StepKeepsCache(env, states[i - 1], events[i - 1]);
      assert states[i - 1 + 1] == Step(env, states[i - 1], events[i - 1]);
      KeepsLastStep(states[i - 1], states[i], events, i - 1);
    }
  }
}

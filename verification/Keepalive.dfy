/** How long connections last: the bounds of the keepalive on a silent connection, and what
    a connection keeps for as long as it is open. */
module Keepalive {
  import opened Messages
  import opened ClientIds
  import opened Views
  import opened Logs
  import opened Machine

  // ---- Handlers leave the timers alone --------------------------------------------------

  /** `d` is `c` later on: closed, or with the timers it had and no handshake undone. */
  predicate SameConnection(c: Conn, d: Conn)
  {
    d.open ==>
      && c.open && d.pingSent == c.pingSent
      && d.pingDeadline == c.pingDeadline && d.dropDeadline == c.dropDeadline
      && (c.session.flags.Done() ==> d.session.flags.Done())
  }

  predicate SameConnections(s: State, t: State)
  {
    SameConnection(s.client, t.client) && SameConnection(s.server, t.server)
  }

  lemma ClosingKeepsConnections(s: State)
    ensures SameConnections(s, DropClient(s)) && SameConnections(s, Reset(s))
  {
  }

  lemma SendKeepsConnections(env: Env, s: State, m: Message)
    ensures SameConnections(s, SendClient(env, s, m).0) && SameConnections(s, SendServer(env, s, m).0)
  {
    hide SessionFromServer, SessionFromClient;
    DoneStays(s.client.session, m);
    DoneStays(s.server.session, m);
  }

  lemma {:induction false} SendAllKeepsConnections(env: Env, s: State, ms: seq<Message>)
    ensures SameConnections(s, SendAll(env, s, ms).0)
    decreases |ms|
  {
    hide SendClient;
    if ms != [] {
      SendKeepsConnections(env, s, ms[0]);
      SendAllKeepsConnections(env, SendClient(env, s, ms[0]).0, ms[1..]);
    }
  }

  lemma {:induction false} ReplayKeepsConnections(env: Env, s: State, name: string, ms: seq<Message>, i: nat)
    requires i <= |ms|
    ensures SameConnections(s, ReplayFrom(env, s, name, ms, i))
    decreases |ms| - i
  {
    hide SendClient;
    if i < |ms| {
      SendKeepsConnections(env, s, ms[i]);
      var (t, ok) := SendClient(env, s, ms[i]);
      if ok {
        var u := t.(ledger := t.ledger.(replayed := t.ledger.replayed + multiset{ms[i]}));
        ReplayKeepsConnections(env, u, name, ms, i + 1);
      }
    }
  }

  lemma {:induction false} SendNamesKeepsConnections(
    env: Env, s: State, name: string, myNick: string, nicks: seq<string>)
    ensures SameConnections(s, SendNames(env, s, name, myNick, nicks).0)
    decreases |nicks|
  {
    hide SendClient;
    if nicks != [] {
      var m := NamesMessage(s.serverPrefix, myNick, name, nicks[0]);
      SendKeepsConnections(env, s, m);
      var t := SendClient(env, s, m).0;
      SendNamesKeepsConnections(env, AddClientUser(t, name, nicks[0]), name, myNick, nicks[1..]);
    }
  }

  lemma SendJoinKeepsConnections(env: Env, s: State, name: string)
    ensures SameConnections(s, SendJoin(env, s, name).0)
  {
    hide SendClient, JoinMessage, TopicMessage;
    SendKeepsConnections(env, TouchPreLog(s, name), JoinMessage(s, name));
    var t := SendClient(env, TouchPreLog(s, name), JoinMessage(s, name)).0;
    SendKeepsConnections(env, t, TopicMessage(t, name));
  }

  lemma RejoinKeepsConnections(env: Env, s: State, name: string, order: seq<string>)
    ensures SameConnections(s, Rejoin(env, s, name, order))
  {
    hide SendClient, SendJoin, SendNames, ReplayFrom, EndOfNamesMessage;
    SendJoinKeepsConnections(env, s, name);
    var u := SendJoin(env, s, name).0;
    SendNamesKeepsConnections(env, TouchClient(u, name), name, u.server.session.id.nick, order);
    var v := SendNames(env, TouchClient(u, name), name, u.server.session.id.nick, order).0;
    SendKeepsConnections(env, v, EndOfNamesMessage(v, name));
    var w := SendClient(env, v, EndOfNamesMessage(v, name)).0;
    ReplayKeepsConnections(env, w, name, LogOf(w.logs, name), 0);
  }

  lemma WelcomeBackKeepsConnections(env: Env, s: State)
    ensures SameConnections(s, WelcomeBack(env, s))
  {
    hide SendAll, SendServer, WelcomeMessages;
    SendAllKeepsConnections(env, s, WelcomeMessages(s));
    var t := SendAll(env, s, WelcomeMessages(s)).0;
    var u := t.(client := t.client.(session := t.client.session.(id := t.server.session.id)));
    SendKeepsConnections(env, u, Message("", Motd, []));
  }

  lemma HandleClientKeepsConnections(env: Env, s: State, m: Message, order: seq<string>)
    ensures SameConnections(s, HandleClient(env, s, m, order))
  {
    hide SendClient, HandleHandshake, HandleCommand, SessionFromClient, Validate, DropClient;
    DoneStays(s.client.session, m);
    match Validate(m)
    case Some(reply) =>
      SendKeepsConnections(env, s, reply);
      ClosingKeepsConnections(SendClient(env, s, reply).0);
    case None =>
      var t := s.(client := s.client.(session := SessionFromClient(s.client.session, m)));
      HandshakeKeepsConnections(env, t, m);
      CommandKeepsConnections(env, t, m, order);
  }

  lemma HandshakeKeepsConnections(env: Env, s: State, m: Message)
    ensures SameConnections(s, HandleHandshake(env, s, m))
  {
    hide SendServer, WelcomeBack, Reset;
    SendKeepsConnections(env, s, m);
    WelcomeBackKeepsConnections(env, s);
    ClosingKeepsConnections(s);
  }

  lemma CommandKeepsConnections(env: Env, s: State, m: Message, order: seq<string>)
    ensures SameConnections(s, HandleCommand(env, s, m, order))
  {
    hide SendClient, SendServer, Rejoin, DropClient;
    SendKeepsConnections(env, s, m);
    SendKeepsConnections(env, s, m.(prefix := "", command := Pong));
    RejoinKeepsConnections(env, s, m.Param(0), order);
    ClosingKeepsConnections(s);
  }

  lemma SendThenReplayKeepsConnections(env: Env, s: State, m: Message, name: string)
    ensures SameConnections(s, Replay(env, SendClient(env, s, m).0, name))
  {
    hide SendClient, ReplayFrom;
    SendKeepsConnections(env, s, m);
    var t := SendClient(env, s, m).0;
    ReplayKeepsConnections(env, t, name, LogOf(t.logs, name), 0);
  }

  lemma WelcomeKeepsConnections(env: Env, s: State, m: Message)
    ensures SameConnections(s, Welcome(env, s, m))
  {
    hide SendClient, LastWord, Parse;
    var t := s.(serverPrefix := m.prefix);
    match Parse(LastWord(m.Param(1)))
    case None =>
    case Some(id) =>
      SendKeepsConnections(env, t.(server := t.server.(session := t.server.session.(id := id))), m);
  }

  lemma HandleServerKeepsConnections(env: Env, s: State, m: Message)
    ensures SameConnections(s, HandleServer(env, s, m))
  {
    hide HandleReply, SessionFromServer, Reset, IsValid;
    ClosingKeepsConnections(s);
    DoneStays(s.server.session, m);
    HandleReplyKeepsConnections(env, Track(s, m), m);
  }

  lemma HandleReplyKeepsConnections(env: Env, s: State, m: Message)
    ensures SameConnections(s, HandleReply(env, s, m))
  {
    hide SendClient, SendServer, Replay, Welcome, SessionFromServer;
    match m.command
    case RplYourhost => SendKeepsConnections(env, s.(cache := s.cache.(yourhost := m.Param(1))), m);
    case RplCreated => SendKeepsConnections(env, s.(cache := s.cache.(created := m.Param(1))), m);
    case RplMyinfo =>
      var rest := if m.params == [] then [] else m.params[1..];
      SendKeepsConnections(env, s.(cache := s.cache.(myinfo := rest)), m);
    case Ping => SendKeepsConnections(env, s, m.(prefix := "", command := Pong));
    case RplWelcome => WelcomeKeepsConnections(env, s, m);
    case RplEndofmotd | ErrNomotd =>
      SendThenReplayKeepsConnections(env, s, m, SendClient(env, s, m).0.client.session.id.nick);
    case RplEndofnames => SendThenReplayKeepsConnections(env, s, m, m.Param(1));
    case _ => SendKeepsConnections(env, s, m);
  }

  // ---- The timer of one connection -------------------------------------------------------

  /** The timer of a connection last heard from at `heard`, when the last tick it was
      checked at was `tick`: no deadline that passed went unnoticed. */
  predicate TimerOk(pingTime: int, c: Conn, tick: int, heard: int)
  {
    c.open ==>
      && c.pingDeadline == heard + pingTime
      && if c.pingSent
         then heard + 2 * pingTime < c.dropDeadline <= heard + 3 * pingTime && tick <= c.dropDeadline
         else tick <= c.pingDeadline
  }

  /** When each connection was last checked and last heard from, and the latest reading of
      the clock. Setting a connection up counts as hearing from it. */
  datatype Clock = Clock(
    latest: int, clientTick: int, serverTick: int, clientHeard: int, serverHeard: int)

  function Advanced(k: Clock, s: State, e: Event): Clock
  {
    match e
    case ClientMessage(_, _, now) => k.(latest := now, clientHeard := now)
    case ClientClosed(now) => k.(latest := now, clientHeard := now)
    case ServerMessage(_, now) => k.(latest := now, serverHeard := now)
    case ServerClosed(now) => k.(latest := now, serverHeard := now)
    case Tick(clientNow, serverNow) =>
      k.(latest := serverNow, clientTick := clientNow, serverTick := serverNow)
    case NewClient(connected, clientNow, serverNow) =>
      k.(latest := serverNow, clientHeard := clientNow,
         serverHeard := if DropClient(s).server.open then k.serverHeard else serverNow)
    case Stop => k
  }

  /** The clock never goes back, and ticks are at most a ping time apart. */
  predicate OnTime(pingTime: int, k: Clock, e: Event)
  {
    match e
    case ClientMessage(_, _, now) => k.latest <= now
    case ClientClosed(now) => k.latest <= now
    case ServerMessage(_, now) => k.latest <= now
    case ServerClosed(now) => k.latest <= now
    case Tick(clientNow, serverNow) =>
      && k.latest <= clientNow <= serverNow
      && clientNow <= k.clientTick + pingTime && serverNow <= k.serverTick + pingTime
    case NewClient(_, clientNow, serverNow) => k.latest <= clientNow <= serverNow
    case Stop => true
  }

  predicate TimersOk(pingTime: int, s: State, k: Clock)
  {
    && k.clientTick <= k.latest && k.serverTick <= k.latest
    && TimerOk(pingTime, s.client, k.clientTick, k.clientHeard)
    && TimerOk(pingTime, s.server, k.serverTick, k.serverHeard)
  }

  lemma CheckKeepsTimers(env: Env, s: State, k: Clock, clientNow: int, serverNow: int)
    requires env.pingTime >= 0 && TimersOk(env.pingTime, s, k)
    requires OnTime(env.pingTime, k, Tick(clientNow, serverNow))
    ensures TimersOk(env.pingTime, CheckServer(env, CheckClient(env, s, clientNow), serverNow),
                     k.(latest := serverNow, clientTick := clientNow, serverTick := serverNow))
  {
    hide SendClient, SendServer, DropClient, Reset;
    SendKeepsConnections(env, s, PING);
    ClosingKeepsConnections(s);
    var t := CheckClient(env, s, clientNow);
    SendKeepsConnections(env, t, PING);
    ClosingKeepsConnections(t);
    DroppedIsClosed(s);
    DroppedIsClosed(t);
  }

  lemma DroppedIsClosed(s: State)
    ensures !DropClient(s).client.open && !Reset(s).client.open && !Reset(s).server.open
  {
  }

  lemma StepKeepsTimers(env: Env, s: State, k: Clock, e: Event)
    requires env.pingTime >= 0 && TimersOk(env.pingTime, s, k) && OnTime(env.pingTime, k, e)
    ensures TimersOk(env.pingTime, Step(env, s, e), Advanced(k, s, e))
  {
    hide HandleClient, HandleServer, CheckClient, CheckServer;
    match e
    case ClientMessage(m, order, now) =>
      HandleClientKeepsConnections(env, s.(client := Renewed(env, s.client, now)), m, order);
    case ServerMessage(m, now) =>
      HandleServerKeepsConnections(env, s.(server := Renewed(env, s.server, now)), m);
    case Tick(clientNow, serverNow) => CheckKeepsTimers(env, s, k, clientNow, serverNow);
    case _ =>
  }

  // ---- Whole runs ------------------------------------------------------------------------

  /** The clock after `n` events of a run. */
  ghost function ClockAt(states: seq<State>, events: seq<Event>, start: int, n: nat): Clock
    requires n <= |events| < |states|
  {
    if n == 0 then Clock(start, start, start, start, start)
    else Advanced(ClockAt(states, events, start, n - 1), states[n - 1], events[n - 1])
  }

  ghost predicate Punctual(pingTime: int, states: seq<State>, events: seq<Event>, start: int)
    requires |events| < |states|
  {
    forall i | 0 <= i < |events| :: OnTime(pingTime, ClockAt(states, events, start, i), events[i])
  }

  lemma {:induction false} RunsKeepTimers(
    env: Env, states: seq<State>, events: seq<Event>, logs: Log, start: int, n: nat)
    requires IsRun(env, states, events) && states[0] == Initial(logs) && env.pingTime >= 0
    requires Punctual(env.pingTime, states, events, start) && n <= |events|
    ensures TimersOk(env.pingTime, states[n], ClockAt(states, events, start, n))
  {
    hide Step, Enabled, OnTime, Advanced;
    if n > 0 {
      RunsKeepTimers(env, states, events, logs, start, n - 1);
      StepKeepsTimers(env, states[n - 1], ClockAt(states, events, start, n - 1), events[n - 1]);
    }
  }

  /** Over every interleaving of messages and ticks: a connection that is still open was
      heard from at most four ping times before any moment up to the next tick, and a
      tick that drops it does so more than two ping times after it was last heard. */
  lemma KeepaliveBounds(
    env: Env, states: seq<State>, events: seq<Event>, logs: Log, start: int, n: nat, now: int)
    requires IsRun(env, states, events) && states[0] == Initial(logs) && env.pingTime >= 0
    requires Punctual(env.pingTime, states, events, start) && n <= |events|
    ensures var s, k := states[n], ClockAt(states, events, start, n);
            && (s.client.open && now <= k.clientTick + env.pingTime ==>
                  now <= k.clientHeard + 4 * env.pingTime)
            && (s.server.open && now <= k.serverTick + env.pingTime ==>
                  now <= k.serverHeard + 4 * env.pingTime)
            && (MustDrop(s.client, now) ==> now > k.clientHeard + 2 * env.pingTime)
            && (MustDrop(s.server, now) ==> now > k.serverHeard + 2 * env.pingTime)
  {
    hide Step, Enabled, OnTime, Advanced;
    RunsKeepTimers(env, states, events, logs, start, n);
  }

  // ---- What else a connection keeps ----------------------------------------------------------

  lemma CheckKeepsDone(env: Env, s: State, now: int)
    ensures CheckClient(env, s, now).client.open && s.client.session.flags.Done() ==>
              CheckClient(env, s, now).client.session.flags.Done()
    ensures SameConnection(s.server, CheckClient(env, s, now).server)
    ensures CheckServer(env, s, now).server.open && s.server.session.flags.Done() ==>
              CheckServer(env, s, now).server.session.flags.Done()
    ensures SameConnection(s.client, CheckServer(env, s, now).client)
    ensures CheckClient(env, s, now).client.open ==> s.client.open
    ensures CheckServer(env, s, now).server.open ==> s.server.open
  {
    hide SendClient, SendServer, DropClient, Reset;
    SendKeepsConnections(env, s, PING);
    ClosingKeepsConnections(s);
    DroppedIsClosed(s);
  }

  /** Within one connection a finished handshake is never undone. */
  lemma DoneIsNeverUndone(env: Env, s: State, e: Event)
    ensures s.server.open && s.server.session.flags.Done() && Step(env, s, e).server.open ==>
              Step(env, s, e).server.session.flags.Done()
    ensures !e.NewClient? && s.client.session.flags.Done() && Step(env, s, e).client.open ==>
              Step(env, s, e).client.session.flags.Done()
  {
    hide HandleClient, HandleServer, CheckClient, CheckServer;
    match e
    case ClientMessage(m, order, now) =>
      HandleClientKeepsConnections(env, s.(client := Renewed(env, s.client, now)), m, order);
    case ServerMessage(m, now) =>
      HandleServerKeepsConnections(env, s.(server := Renewed(env, s.server, now)), m);
    case Tick(clientNow, serverNow) =>
      CheckKeepsDone(env, s, clientNow);
      CheckKeepsDone(env, CheckClient(env, s, clientNow), serverNow);
    case _ =>
  }

  /** The point of an idler: a client that goes, quits or is replaced takes the server
      connection with it exactly when the server's handshake is unfinished, and otherwise
      leaves it as it is. */
  lemma ServerOutlivesClients(env: Env, s: State, e: Event)
    requires s.server.open
    requires e.ClientClosed?
             || (e.NewClient? && !e.connected)
             || (e.ClientMessage? && e.message.command.Quit? && IsValid(e.message)
                 && s.client.session.flags.Done())
    ensures Step(env, s, e).server.open <==> s.server.session.flags.Done()
    ensures s.server.session.flags.Done() ==> Step(env, s, e).server == s.server
  {
  }

  /** A client that connects is kept, with a fresh session, exactly if the server is there with
      its handshake finished, and then stays as it is, or can be dialled, and is then fresh
      as well; otherwise both are closed. */
  lemma ConnectsExactly(env: Env, s: State, connected: bool, clientNow: int, serverNow: int)
    ensures var t := Step(env, s, NewClient(connected, clientNow, serverNow));
            var stays := s.server.open && s.server.session.flags.Done();
            && (t.client.open <==> stays || connected)
            && (t.server.open <==> stays || connected)
            && (t.client.open ==> t.client.session == NEW_SESSION && !t.client.pingSent)
            && (stays ==> t.server == s.server)
            && (!stays && connected && (s.server.open || !s.server.session.flags.Done()) ==>
                  t.server.session == NEW_SESSION && !t.server.pingSent)
            && t.logs == s.logs && t.preLog == s.preLog
  {
  }

  /** What ends both connections: the server's going, our stopping, and what the server may not
      say: an invalid message, or a welcome without an identity in it. */
  lemma EndsBoth(env: Env, s: State, e: Event)
    requires || e.ServerClosed? || e.Stop?
             || (e.ServerMessage? && !IsValid(e.message))
             || (e.ServerMessage? && e.message.command.RplWelcome?
                 && ClientIds.Parse(LastWord(e.message.Param(1))).None?)
    ensures !Step(env, s, e).client.open && !Step(env, s, e).server.open
  {
    hide LastWord, SessionFromServer;
  }

  /** What ends the client's connection, and the server's unless its handshake is finished: the
      client's going, what it may not say, and its QUIT. */
  lemma EndsClient(env: Env, s: State, e: Event)
    requires || e.ClientClosed?
             || (e.ClientMessage? && !IsValid(e.message))
             || (e.ClientMessage? && e.message.command.Quit? && s.client.session.flags.Done())
    requires s.server.open
    ensures var t := Step(env, s, e);
            !t.client.open && (if s.server.session.flags.Done() then t.server == s.server else !t.server.open)
  {
    hide SessionFromServer;
  }

  /** A client that comes back to a server whose welcome was never seen ends both. */
  lemma EndsWithoutWelcome(env: Env, s: State, m: Message, order: seq<string>)
    requires IsValid(m) && (m.command.User? || m.command.Nick?) && !s.haveCache
    requires s.server.session.flags.Done() && !s.client.session.flags.haveMotd
    requires s.client.session.flags.haveUser || m.command.User?
    requires s.client.session.flags.haveNick || m.command.Nick?
    ensures var t := HandleClient(env, s, m, order); !t.client.open && !t.server.open
  {
  }
}

/** The proxy as a transition system over values: what each event of its loop does. The
    class `Proxies.Proxy` is proved to compute `Step` in place; the invariants over whole
    runs are proved about `Step`. */
module Machine {
  import opened Text
  import opened Messages
  import opened ClientIds
  import opened Views
  import opened Logs

  /** What the outside decides: whether the n-th write attempt succeeds, and the ping time. */
  datatype Env = Env(writes: nat -> bool, pingTime: int)

  datatype Conn = Conn(
    open: bool, session: SessionView, pingSent: bool, pingDeadline: int, dropDeadline: int)

  const CLOSED := Conn(false, NEW_SESSION, false, 0, 0)

  datatype Cache = Cache(yourhost: string, created: string, myinfo: seq<string>)

  /** History of the messages that belong in a log. `received`: sent to us by the server;
      `relayed`: passed on at once; `replayed`: sent from a log; `cut`: the part of
      `replayed` sent by replays that broke off and left their log in place. */
  datatype Ledger = Ledger(
    received: multiset<Message>, relayed: multiset<Message>,
    replayed: multiset<Message>, cut: multiset<Message>)

  datatype State = State(
    client: Conn, server: Conn,
    preLog: SessionView,
    logs: Log,
    haveCache: bool, cache: Cache, serverPrefix: string,
    attempts: nat,               // writes tried so far
    toClient: seq<Message>,      // history: everything written to a client
    toServer: seq<Message>,      // history: everything written to a server
    ledger: Ledger)

  function Initial(logs: Log): State
  {
    State(CLOSED, CLOSED, NEW_SESSION, logs, false, Cache("", "", []), "", 0, [], [],
          Ledger(multiset{}, multiset{}, multiset{}, multiset{}))
  }

  // ---- Closing and sending ----------------------------------------------------------

  function Shutdown(c: Conn): Conn { if c.open then CLOSED else c }

  /** Disconnects the client, and the server too if its handshake is not done. */
  function DropClient(s: State): State
  {
    var t := s.(client := Shutdown(s.client));
    if t.server.session.flags.Done() then t else t.(server := Shutdown(t.server))
  }

  function Reset(s: State): State
  {
    s.(client := Shutdown(s.client), server := Shutdown(s.server))
  }

  function SendServer(env: Env, s: State, m: Message): (State, bool)
  {
    if !s.server.open then (s, false)
    else
      var t := s.(attempts := s.attempts + 1);
      if !env.writes(s.attempts) then (Reset(t), false)
      else
        (t.(server := t.server.(session := SessionFromClient(t.server.session, m)),
            toServer := t.toServer + [m]), true)
  }

  function SendClient(env: Env, s: State, m: Message): (State, bool)
  {
    if !s.client.open then (s, false)
    else
      var t := s.(attempts := s.attempts + 1);
      if !env.writes(s.attempts) then (DropClient(t), false)
      else
        (t.(client := t.client.(session := SessionFromServer(t.client.session, m)),
            preLog := SessionFromServer(t.preLog, m),
            toClient := t.toClient + [m]), true)
  }

  /** Sends messages in order up to the first failure. */
  function SendAll(env: Env, s: State, ms: seq<Message>): (State, bool)
    decreases |ms|
  {
    if ms == [] then (s, true)
    else
      var (t, ok) := SendClient(env, s, ms[0]);
      if ok then SendAll(env, t, ms[1..]) else (t, false)
  }

  // ---- The log ------------------------------------------------------------------------

  function LogMessage(s: State, m: Message): State
  {
    if Loggable(m.command) then s.(logs := Appended(s.logs, m.Param(0), m)) else s
  }

  /** The replay of `ms` from place `i`: the log is cleared only once all are sent. */
  function ReplayFrom(env: Env, s: State, name: string, ms: seq<Message>, i: nat): State
    requires i <= |ms|
    decreases |ms| - i
  {
    if i == |ms| then s.(logs := Cleared(s.logs, name))
    else
      var (t, ok) := SendClient(env, s, ms[i]);
      if ok then
        ReplayFrom(env, t.(ledger := t.ledger.(replayed := t.ledger.replayed + multiset{ms[i]})),
                   name, ms, i + 1)
      else t.(ledger := t.ledger.(cut := t.ledger.cut + multiset(ms[..i])))
  }

  function Replay(env: Env, s: State, name: string): State
  {
    ReplayFrom(env, s, name, LogOf(s.logs, name), 0)
  }

  // ---- Messages from the client ---------------------------------------------------------

  /** The welcome sequence for a client that reconnects. */
  function WelcomeMessages(s: State): seq<Message>
  {
    var nick := s.server.session.id.nick;
    [Message(s.serverPrefix, RplWelcome,
             [nick, "Welcome back to IRC Idler, " + Print(s.server.session.id)]),
     Message(s.serverPrefix, RplYourhost, [nick, s.cache.yourhost]),
     Message(s.serverPrefix, RplCreated, [nick, s.cache.created]),
     Message(s.serverPrefix, RplMyinfo, [nick] + s.cache.myinfo)]
  }

  function WelcomeBack(env: Env, s: State): State
  {
    var (t, ok) := SendAll(env, s, WelcomeMessages(s));
    if !ok then t
    else
      var u := t.(client := t.client.(session := t.client.session.(id := t.server.session.id)));
      SendServer(env, u, Message("", Motd, [])).0
  }

  function HandleHandshake(env: Env, s: State, m: Message): State
  {
    if !(m.command.Pass? || m.command.User? || m.command.Nick?) then s
    else if !s.server.session.flags.Done() then SendServer(env, s, m).0
    else if !s.client.session.flags.WantsWelcome() then s
    else if !s.haveCache then Reset(s)
    else WelcomeBack(env, s)
  }

  function JoinMessage(s: State, name: string): Message
  {
    Message(Print(s.client.session.id), Join, [name])
  }

  function TopicMessage(s: State, name: string): Message
  {
    Message(s.serverPrefix, RplTopic,
            [Print(s.client.session.id), name, ChannelIn(s.preLog.channels, name).topic])
  }

  function NamesMessage(prefix: string, myNick: string, name: string, nick: string): Message
  {
    Message(prefix, RplNamereply, [myNick, "=", name, nick])
  }

  function EndOfNamesMessage(s: State, name: string): Message
  {
    Message(s.serverPrefix, RplEndofnames,
            [s.server.session.id.nick, name, "End of NAMES list"])
  }

  function AddClientUser(s: State, name: string, nick: string): State
  {
    var ch := ChannelIn(s.client.session.channels, name);
    s.(client := s.client.(session := s.client.session.(channels :=
       s.client.session.channels[name := ch.(users := ch.users + {nick})])))
  }

  /** One NAMES reply for each nick, recorded in the client's channel by hand as well. */
  function SendNames(env: Env, s: State, name: string, myNick: string, nicks: seq<string>)
    : (State, bool)
    decreases |nicks|
  {
    if nicks == [] then (s, true)
    else
      var (t, ok) := SendClient(env, s, NamesMessage(s.serverPrefix, myNick, name, nicks[0]));
      if !ok then (t, false)
      else SendNames(env, AddClientUser(t, name, nicks[0]), name, myNick, nicks[1..])
  }

  /** The channel entry `GetChannel` makes if there is none. */
  function TouchPreLog(s: State, name: string): State
  {
    s.(preLog := s.preLog.(channels := s.preLog.channels[name := ChannelIn(s.preLog.channels, name)]))
  }

  function TouchClient(s: State, name: string): State
  {
    s.(client := s.client.(session := s.client.session.(channels :=
       s.client.session.channels[name := ChannelIn(s.client.session.channels, name)])))
  }

  /** The users that a rejoin lists: those from before the log, and ourselves. */
  function Roster(s: State, name: string): set<string>
  {
    UsersAfter(UsersIn(s.preLog, name), JoinMessage(s, name))
  }

  /** The rejoin up to its topic. */
  function SendJoin(env: Env, s: State, name: string): (State, bool)
  {
    var (t, ok) := SendClient(env, TouchPreLog(s, name), JoinMessage(s, name));
    if !ok || ChannelIn(t.preLog.channels, name).topic == "" then (t, ok)
    else SendClient(env, t, TopicMessage(t, name))
  }

  /** The rejoin up to and including the end of the names. */
  function Introduce(env: Env, s: State, name: string, order: seq<string>): (State, bool)
  {
    var (t, ok) := SendJoin(env, s, name);
    if !ok then (t, false)
    else
      var (u, named) := SendNames(env, TouchClient(t, name), name, t.server.session.id.nick, order);
      if !named then (u, false) else SendClient(env, u, EndOfNamesMessage(u, name))
  }

  function Rejoin(env: Env, s: State, name: string, order: seq<string>): State
  {
    var (t, ok) := Introduce(env, s, name, order);
    if ok then Replay(env, t, name) else t
  }

  function HandleCommand(env: Env, s: State, m: Message, order: seq<string>): State
  {
    match m.command
    case Ping => SendClient(env, s, m.(prefix := "", command := Pong)).0
    case Pong => s
    case Quit => DropClient(s)
    case Join =>
      var name := m.Param(0);
      if name in s.client.session.channels then s
      else if name in s.server.session.channels then Rejoin(env, s, name, order)
      else SendServer(env, s, m).0
    case _ => SendServer(env, s, m).0
  }

  function HandleClient(env: Env, s: State, m: Message, order: seq<string>): State
  {
    match Validate(m)
    case Some(reply) => DropClient(SendClient(env, s, reply).0)
    case None =>
      var t := s.(client := s.client.(session := SessionFromClient(s.client.session, m)));
      if !t.client.session.flags.Done() then HandleHandshake(env, t, m)
      else HandleCommand(env, t, m, order)
  }

  // ---- Messages from the server -----------------------------------------------------------

  /** Sends the message on, or logs it if that fails. */
  function Relay(env: Env, s: State, m: Message): State
  {
    var (t, ok) := SendClient(env, s, m);
    if !ok then LogMessage(t, m)
    else if !Loggable(m.command) then t
    else t.(ledger := t.ledger.(relayed := t.ledger.relayed + multiset{m}))
  }

  function LastWord(text: string): string
  {
    var parts := Split(text, ' ');
    parts[|parts| - 1]
  }

  function Welcome(env: Env, s: State, m: Message): State
  {
    var t := s.(serverPrefix := m.prefix);
    match Parse(LastWord(m.Param(1)))
    case None => Reset(t)
    case Some(id) =>
      var u := t.(server := t.server.(session := t.server.session.(id := id)));
      var (v, ok) := SendClient(env, u, m);
      if ok then v.(client := v.client.(session := v.client.session.(id := id))) else v
  }

  /** The tracking of a server message, before anything is done about it. */
  function Track(s: State, m: Message): State
  {
    var t := s.(server := s.server.(session := SessionFromServer(s.server.session, m)));
    if Loggable(m.command) then
      t.(ledger := t.ledger.(received := t.ledger.received + multiset{m}))
    else t
  }

  function HandleReply(env: Env, s: State, m: Message): State
  {
    match m.command
    case Ping => SendServer(env, s, m.(prefix := "", command := Pong)).0
    case Pong => s
    case RplMotdstart | RplMotd | RplNamereply | RplTopic
       | ErrNonicknamegiven | ErrErroneusnickname | ErrNicknameinuse | ErrNickcollision =>
      SendClient(env, s, m).0
    case RplWelcome => Welcome(env, s, m)
    case RplYourhost => SendClient(env, s.(cache := s.cache.(yourhost := m.Param(1))), m).0
    case RplCreated => SendClient(env, s.(cache := s.cache.(created := m.Param(1))), m).0
    case RplMyinfo =>
      var rest := if m.params == [] then [] else m.params[1..];
      SendClient(env, s.(cache := s.cache.(myinfo := rest)), m).0.(haveCache := true)
    case RplEndofmotd | ErrNomotd =>
      var t := SendClient(env, s, m).0;
      Replay(env, t, t.client.session.id.nick)
    case RplEndofnames => Replay(env, SendClient(env, s, m).0, m.Param(1))
    case Privmsg | Notice =>
      if m.Param(0) in s.client.session.channels || IsMe(s.client.session, m.Param(0))
      then Relay(env, s, m) else LogMessage(s, m)
    case Join | Kick | Part | Quit | Nick =>
      if s.client.session.flags.Done() then Relay(env, s, m) else LogMessage(s, m)
    case _ => Relay(env, s, m)
  }

  function HandleServer(env: Env, s: State, m: Message): State
  {
    if !IsValid(m) then Reset(s) else HandleReply(env, Track(s, m), m)
  }

  // ---- The clock ------------------------------------------------------------------------

  function Renewed(env: Env, c: Conn, now: int): Conn
  {
    c.(pingDeadline := now + env.pingTime, pingSent := false)
  }

  function Setup(env: Env, c: Conn, now: int): Conn
  {
    Renewed(env, c.(open := true, session := NEW_SESSION), now)
  }

  const PING := Message("", Ping, ["irc-idler"])

  predicate MustDrop(c: Conn, now: int) { c.open && c.pingSent && now > c.dropDeadline }

  predicate MustPing(c: Conn, now: int) { c.open && !c.pingSent && now > c.pingDeadline }

  function Pinged(env: Env, c: Conn, now: int): Conn
  {
    c.(pingSent := true, dropDeadline := now + env.pingTime)
  }

  function CheckClient(env: Env, s: State, now: int): State
  {
    if MustDrop(s.client, now) then DropClient(s)
    else if MustPing(s.client, now) then
      var t := SendClient(env, s, PING).0;
      t.(client := Pinged(env, t.client, now))
    else s
  }

  function CheckServer(env: Env, s: State, now: int): State
  {
    if MustDrop(s.server, now) then Reset(s)
    else if MustPing(s.server, now) then
      var t := SendServer(env, s, PING).0;
      t.(server := Pinged(env, t.server, now))
    else s
  }

  /** A client connects: the old one is booted, and the server dialled if need be. */
  function Connect(env: Env, s: State, connected: bool, clientNow: int, serverNow: int): State
  {
    var t := DropClient(s);
    var u := t.(client := Setup(env, t.client, clientNow));
    if u.server.open then u
    else if connected then u.(server := Setup(env, u.server, serverNow))
    else DropClient(u)
  }

  // ---- The event loop ---------------------------------------------------------------------

  /** One turn of the loop. Every reading of the clock is part of the event; so is the
      order in which a rejoin happens to list the users, and whether dialling worked. */
  datatype Event =
    | ClientMessage(message: Message, order: seq<string>, now: int)
    | ClientClosed(now: int)
    | ServerMessage(message: Message, now: int)
    | ServerClosed(now: int)
    | Tick(clientNow: int, serverNow: int)
    | NewClient(connected: bool, clientNow: int, serverNow: int)
    | Stop

  /** Closed connections deliver nothing, users are listed in some order without gaps or
      repetitions, and the server sends nothing that makes the program index past the end. */
  ghost predicate Enabled(s: State, e: Event)
  {
    match e
    case ClientMessage(m, order, _) =>
      s.client.open && (m.command.Join? && IsValid(m) ==> Enumerates(order, Roster(s, m.Param(0))))
    case ClientClosed(_) => s.client.open
    case ServerMessage(m, _) => s.server.open && (IsValid(m) ==> Indexable(m))
    case ServerClosed(_) => s.server.open
    case _ => true
  }

  function Step(env: Env, s: State, e: Event): State
  {
    match e
    case ClientMessage(m, order, now) =>
      HandleClient(env, s.(client := Renewed(env, s.client, now)), m, order)
    case ClientClosed(now) => DropClient(s.(client := Renewed(env, s.client, now)))
    case ServerMessage(m, now) =>
      HandleServer(env, s.(server := Renewed(env, s.server, now)), m)
    case ServerClosed(now) => Reset(s.(server := Renewed(env, s.server, now)))
    case Tick(clientNow, serverNow) =>
      CheckServer(env, CheckClient(env, s, clientNow), serverNow)
    case NewClient(connected, clientNow, serverNow) =>
      Connect(env, s, connected, clientNow, serverNow)
    case Stop => Reset(s)
  }

  /** A run of the loop: states at its top, and the events between them. */
  ghost predicate IsRun(env: Env, states: seq<State>, events: seq<Event>)
  {
    && |states| == |events| + 1
    && forall i | 0 <= i < |events| ::
         Enabled(states[i], events[i]) && states[i + 1] == Step(env, states[i], events[i])
  }
}

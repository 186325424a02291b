/** The proxy as the program has it: objects updated in place. Every method is proved to
    compute the function of `Machine` it is named after. */
module Proxies {
  import opened Text
  import opened Messages
  import opened ClientIds
  import opened Views
  import opened Logs
  import opened Machine
  import opened Safety
  import opened Sessions
  import opened Connections
  import Ephemeral

  /** Channels in both maps have the same state objects. */
  ghost predicate SameStates(before: map<string, ChannelState>, after: map<string, ChannelState>)
  {
    forall c | c in before && c in after :: after[c] == before[c]
  }

  /** What the loop may be woken by. */
  datatype Input =
    | FromClient(message: Message, now: int)
    | ClientGone(now: int)
    | FromServer(message: Message, now: int)
    | ServerGone(now: int)
    | Ticked(clientNow: int, serverNow: int)
    | Dialled(connected: bool, clientNow: int, serverNow: int)
    | Stopped

  /** Nothing in it makes the program index past the end. */
  predicate IsRead(input: Input)
  {
    input.FromServer? && IsValid(input.message) ==> Indexable(input.message)
  }

  /** What an input has to come to: on an open connection the event with the same message
      and clock, on a closed one nothing, as the loop does not listen there; the rest always
      happens. How a rejoin lists the users, and nothing else, is up to the proxy. */
  ghost predicate Answers(s: State, input: Input, happened: Option<Event>)
  {
    match input
    case FromClient(m, now) =>
      if s.client.open then exists order :: happened == Some(ClientMessage(m, order, now)) else happened == None
    case ClientGone(now) => happened == if s.client.open then Some(ClientClosed(now)) else None
    case FromServer(m, now) => happened == if s.server.open then Some(ServerMessage(m, now)) else None
    case ServerGone(now) => happened == if s.server.open then Some(ServerClosed(now)) else None
    case Ticked(clientNow, serverNow) => happened == Some(Tick(clientNow, serverNow))
    case Dialled(connected, clientNow, serverNow) => happened == Some(NewClient(connected, clientNow, serverNow))
    case Stopped => happened == Some(Stop)
  }

  /** The inputs that are read: all up to and including the first `Stopped`. */
  function UntilStop(inputs: seq<Input>): seq<Input>
  {
    if inputs == [] then [] else if inputs[0].Stopped? then [inputs[0]]
    else [inputs[0]] + UntilStop(inputs[1..])
  }

  /** The events of the run are what the inputs come to, one after the other, each in the
      state that the ones before it lead to. */
  ghost predicate AnswersAll(inputs: seq<Input>, states: seq<State>, events: seq<Event>)
    decreases |inputs|
  {
    if inputs == [] then |states| == 1 && events == []
    else
      var init, last := inputs[..|inputs| - 1], inputs[|inputs| - 1];
      || (states != [] && Answers(states[|states| - 1], last, None) && AnswersAll(init, states, events))
      || (|states| > 1 && events != []
          && Answers(states[|states| - 2], last, Some(events[|events| - 1]))
          && AnswersAll(init, states[..|states| - 1], events[..|events| - 1]))
  }

  lemma {:induction false} ReadUpTo(inputs: seq<Input>, n: nat)
    requires n <= |inputs| && forall i | 0 <= i < n :: !inputs[i].Stopped?
    ensures n == |inputs| ==> UntilStop(inputs) == inputs
    ensures n < |inputs| && inputs[n].Stopped? ==> UntilStop(inputs) == inputs[..n + 1]
  {
    if n > 0 {
      ReadUpTo(inputs[1..], n - 1);
      assert n < |inputs| ==> inputs[..n + 1] == [inputs[0]] + inputs[1..][..n];
    }
  }

  lemma AnsweredOneMore(
    inputs: seq<Input>, states: seq<State>, events: seq<Event>, input: Input, happened: Option<Event>, t: State)
    requires |states| == |events| + 1 && AnswersAll(inputs, states, events)
    requires Answers(states[|events|], input, happened)
    ensures happened.None? ==> AnswersAll(inputs + [input], states, events)
    ensures happened.Some? ==> AnswersAll(inputs + [input], states + [t], events + [happened.value])
  {
    hide Answers;
    assert (inputs + [input])[..|inputs|] == inputs;
    if happened.Some? {
      var states', events' := states + [t], events + [happened.value];
      assert states'[..|states|] == states && events'[..|events|] == events;
      assert states'[|states'| - 2] == states[|events|];
    }
  }

  class Proxy {
    const env: Env
    const client: Connection
    const server: Connection
    const preLog: Session
    const messagelogs: Ephemeral.Store
    var haveMsgCache: bool
    var msgCache: Cache
    var serverPrefix: string
    var attempts: nat

    ghost var toClient: seq<Message>
    ghost var toServer: seq<Message>
    ghost var ledger: Ledger
    ghost var Repr: set<object>

    /** The three sessions share nothing, and the log holds what the proxy logs. */
    ghost predicate Valid()
      reads this, Repr
      ensures Valid() ==> this in Repr
    {
      && {this, client, server, preLog, messagelogs} <= Repr
      && client.Repr <= Repr && server.Repr <= Repr && preLog.Repr <= Repr
      && client.Repr !! server.Repr !! preLog.Repr !! {this, messagelogs}
      && client.Valid() && server.Valid() && preLog.Valid()
      && WellKept(messagelogs.channels)
    }

    ghost function View(): State
      requires Valid()
      reads this, Repr
    {
      State(client.View(), server.View(), preLog.View(), messagelogs.channels,
            haveMsgCache, msgCache, serverPrefix, attempts, toClient, toServer, ledger)
    }

    constructor (env: Env, store: Ephemeral.Store)
      requires WellKept(store.channels)
      ensures Valid() && this.env == env && messagelogs == store
      ensures fresh(Repr - {store})
      ensures View() == Initial(store.channels)
    {
      hide Connection.View, Connection.Valid, Session.View, Session.Valid, WellKept;
      this.env := env;
      client := new Connection();
      server := new Connection();
      preLog := new Session();
      messagelogs := store;
      haveMsgCache, msgCache, serverPrefix, attempts := false, Cache("", "", []), "", 0;
      toClient, toServer := [], [];
      ledger := Ledger(multiset{}, multiset{}, multiset{}, multiset{});
      new;
      Repr := {this, store} + client.Repr + server.Repr + preLog.Repr;
    }

    // ---- Reading the state ---------------------------------------------------------------

    predicate ClientIsClosed()
      requires Valid()
      reads this, Repr
      ensures ClientIsClosed() <==> !View().client.open
    {
      client.IsClosed()
    }

    predicate ServerIsClosed()
      requires Valid()
      reads this, Repr
      ensures ServerIsClosed() <==> !View().server.open
    {
      server.IsClosed()
    }

    function ClientFlags(): (f: Flags)
      requires Valid()
      reads this, Repr
      ensures f == View().client.session.flags
    {
      client.Flags()
    }

    function ServerFlags(): (f: Flags)
      requires Valid()
      reads this, Repr
      ensures f == View().server.session.flags
    {
      server.Flags()
    }

    function ClientId(): (id: ClientIds.ClientId)
      requires Valid()
      reads this, Repr
      ensures id == View().client.session.id
    {
      client.Id()
    }

    function ServerId(): (id: ClientIds.ClientId)
      requires Valid()
      reads this, Repr
      ensures id == View().server.session.id
    {
      server.Id()
    }

    predicate ClientHas(name: string)
      requires Valid()
      reads this, Repr
      ensures ClientHas(name) <==> name in View().client.session.channels
    {
      client.HaveChannel(name)
    }

    predicate ServerHas(name: string)
      requires Valid()
      reads this, Repr
      ensures ServerHas(name) <==> name in View().server.session.channels
    {
      server.HaveChannel(name)
    }

    // ---- Changing one part of it ------------------------------------------------------------

    method ShutdownClient()
      requires Valid()
      modifies Repr
      ensures Valid() && fresh(Repr - old(Repr))
      ensures View() == old(View()).(client := Machine.Shutdown(old(View()).client))
    {
      hide Connection.View, Connection.Valid, Session.View, Session.Valid, WellKept;
      client.Shutdown();
      Repr := Repr + client.Repr;
    }

    method ShutdownServer()
      requires Valid()
      modifies Repr
      ensures Valid() && fresh(Repr - old(Repr))
      ensures View() == old(View()).(server := Machine.Shutdown(old(View()).server))
    {
      hide Connection.View, Connection.Valid, Session.View, Session.Valid, WellKept;
      server.Shutdown();
      Repr := Repr + server.Repr;
    }

    method SetupClient(now: int)
      requires Valid()
      modifies Repr
      ensures Valid() && fresh(Repr - old(Repr))
      ensures View() == old(View()).(client := Machine.Setup(env, old(View()).client, now))
    {
      hide Connection.View, Connection.Valid, Session.View, Session.Valid, WellKept;
      client.Setup(env, now);
      Repr := Repr + client.Repr;
    }

    method SetupServer(now: int)
      requires Valid()
      modifies Repr
      ensures Valid() && fresh(Repr - old(Repr))
      ensures View() == old(View()).(server := Machine.Setup(env, old(View()).server, now))
    {
      hide Connection.View, Connection.Valid, Session.View, Session.Valid, WellKept;
      server.Setup(env, now);
      Repr := Repr + server.Repr;
    }

    method RenewClient(now: int)
      requires Valid()
      modifies Repr
      ensures Valid() && fresh(Repr - old(Repr))
      ensures View() == old(View()).(client := Renewed(env, old(View()).client, now))
    {
      hide Connection.View, Connection.Valid, Session.View, Session.Valid, WellKept;
      client.UpdateDeadlines(env, now);
    }

    method RenewServer(now: int)
      requires Valid()
      modifies Repr
      ensures Valid() && fresh(Repr - old(Repr))
      ensures View() == old(View()).(server := Renewed(env, old(View()).server, now))
    {
      hide Connection.View, Connection.Valid, Session.View, Session.Valid, WellKept;
      server.UpdateDeadlines(env, now);
    }

    method MarkClientPinged(now: int)
      requires Valid()
      modifies Repr
      ensures Valid() && fresh(Repr - old(Repr))
      ensures View() == old(View()).(client := Pinged(env, old(View()).client, now))
    {
      hide Connection.View, Connection.Valid, Session.View, Session.Valid, WellKept;
      client.MarkPinged(env, now);
    }

    method MarkServerPinged(now: int)
      requires Valid()
      modifies Repr
      ensures Valid() && fresh(Repr - old(Repr))
      ensures View() == old(View()).(server := Pinged(env, old(View()).server, now))
    {
      hide Connection.View, Connection.Valid, Session.View, Session.Valid, WellKept;
      server.MarkPinged(env, now);
    }

    method SetClientId(id: ClientIds.ClientId)
      requires Valid()
      modifies Repr
      ensures Valid() && fresh(Repr - old(Repr))
      ensures var c := old(View()).client;
              View() == old(View()).(client := c.(session := c.session.(id := id)))
    {
      hide Connection.View, Connection.Valid, Session.View, Session.Valid, WellKept;
      client.SetId(id);
    }

    method SetServerId(id: ClientIds.ClientId)
      requires Valid()
      modifies Repr
      ensures Valid() && fresh(Repr - old(Repr))
      ensures var c := old(View()).server;
              View() == old(View()).(server := c.(session := c.session.(id := id)))
    {
      hide Connection.View, Connection.Valid, Session.View, Session.Valid, WellKept;
      server.SetId(id);
    }

    /** The client has said `msg`. */
    method HearClient(msg: Message)
      requires Valid()
      modifies Repr
      ensures Valid() && fresh(Repr - old(Repr))
      ensures var c := old(View()).client;
              View() == old(View()).(client := c.(session := SessionFromClient(c.session, msg)))
    {
      hide Connection.View, Connection.Valid, Session.View, Session.Valid, WellKept;
      client.UpdateFromClient(msg);
      Repr := Repr + client.Repr;
    }

    /** The server has said `msg`. */
    method HearServer(msg: Message)
      requires Valid() && Indexable(msg)
      modifies Repr
      ensures Valid() && fresh(Repr - old(Repr))
      ensures View() == Track(old(View()), msg)
    {
      hide Connection.View, Connection.Valid, Session.View, Session.Valid, WellKept, SessionFromServer;
      server.UpdateFromServer(msg);
      if Loggable(msg.command) {
        ledger := ledger.(received := ledger.received + multiset{msg});
      }
      Repr := Repr + server.Repr;
    }

    /** The server has been told `msg`. */
    method TellServer(msg: Message)
      requires Valid()
      modifies Repr
      ensures Valid() && fresh(Repr - old(Repr))
      ensures var c := old(View()).server;
              View() == old(View()).(server := c.(session := SessionFromClient(c.session, msg)),
                                     toServer := old(View()).toServer + [msg])
    {
      hide Connection.View, Connection.Valid, Session.View, Session.Valid, WellKept, SessionFromClient;
      server.UpdateFromClient(msg);
      toServer := toServer + [msg];
      Repr := Repr + server.Repr;
    }

    /** The client has been told `msg`; so has the session from before the log. */
    method TellClient(msg: Message)
      requires Valid() && Indexable(msg)
      modifies Repr
      ensures Valid() && fresh(Repr - old(Repr))
      ensures var s, c := old(View()), old(View()).client;
              View() == s.(client := c.(session := SessionFromServer(c.session, msg)),
                           preLog := SessionFromServer(s.preLog, msg), toClient := s.toClient + [msg])
      ensures SameStates(old(client.session.channels.channels), client.session.channels.channels)
      ensures SameStates(old(preLog.channels.channels), preLog.channels.channels)
    {
      hide Connection.View, Session.View, WellKept, SessionFromServer, ChannelMap.Valid;
      client.UpdateFromServer(msg);
      preLog.UpdateFromServer(msg);
      toClient := toClient + [msg];
      Repr := Repr + client.Repr + preLog.Repr;
    }

    /** One attempt to write to a connection. */
    method Attempt() returns (ok: bool)
      requires Valid()
      modifies Repr
      ensures Valid() && fresh(Repr - old(Repr))
      ensures ok == env.writes(old(View()).attempts)
      ensures View() == old(View()).(attempts := old(View()).attempts + 1)
      ensures client.session == old(client.session)
      ensures client.session.channels.channels == old(client.session.channels.channels)
      ensures preLog.channels.channels == old(preLog.channels.channels)
    {
      hide Connection.View, Connection.Valid, Session.View, Session.Valid, WellKept;
      ok := env.writes(attempts);
      attempts := attempts + 1;
    }

    /** `state` is the object kept for the channel by the client's session. */
    ghost predicate ClientHolds(name: string, state: ChannelState)
      reads this, client, client.session, client.session.channels
    {
      name in client.session.channels.channels && client.session.channels.channels[name] == state
    }

    /** `state` is the object kept for the channel by the session from before the log. */
    ghost predicate PreLogHolds(name: string, state: ChannelState)
      reads this, preLog, preLog.channels
    {
      name in preLog.channels.channels && preLog.channels.channels[name] == state
    }

    lemma StatesAreViews(name: string, state: ChannelState)
      requires Valid()
      ensures View().client.session.channels.Keys == client.session.channels.channels.Keys
      ensures View().preLog.channels.Keys == preLog.channels.channels.Keys
      ensures PreLogHolds(name, state) ==> state.View() == View().preLog.channels[name]
    {
    }

    method GetClientChannel(name: string) returns (state: ChannelState)
      requires Valid()
      modifies Repr
      ensures Valid() && fresh(Repr - old(Repr))
      ensures View() == TouchClient(old(View()), name)
      ensures ClientHolds(name, state)
      ensures preLog.channels.channels == old(preLog.channels.channels)
    {
      hide Connection.View, Session.View, ChannelMap.Valid, WellKept;
      state := client.GetChannel(name);
      Repr := Repr + client.Repr;
    }

    method GetPreLogChannel(name: string) returns (state: ChannelState)
      requires Valid()
      modifies Repr
      ensures Valid() && fresh(Repr - old(Repr))
      ensures View() == TouchPreLog(old(View()), name)
      ensures PreLogHolds(name, state)
    {
      hide Connection.View, Connection.Valid, WellKept;
      state := preLog.GetChannel(name);
      Repr := Repr + preLog.Repr;
    }

    method AddClientUser(name: string, state: ChannelState, nick: string)
      requires Valid() && ClientHolds(name, state)
      modifies Repr
      ensures Valid() && fresh(Repr - old(Repr))
      ensures View() == Machine.AddClientUser(old(View()), name, nick)
      ensures ClientHolds(name, state)
    {
      hide Connection.View, Session.View, ChannelMap.Valid, WellKept;
      client.AddUser(name, state, nick);
    }

    method SetServerPrefix(prefix: string)
      requires Valid()
      modifies Repr
      ensures Valid() && fresh(Repr - old(Repr))
      ensures View() == old(View()).(serverPrefix := prefix)
    {
      hide Connection.View, Connection.Valid, Session.View, Session.Valid, WellKept;
      serverPrefix := prefix;
    }

    method SetCache(cache: Cache)
      requires Valid()
      modifies Repr
      ensures Valid() && fresh(Repr - old(Repr))
      ensures View() == old(View()).(cache := cache)
    {
      hide Connection.View, Connection.Valid, Session.View, Session.Valid, WellKept;
      msgCache := cache;
    }

    method SetHaveMsgCache()
      requires Valid()
      modifies Repr
      ensures Valid() && fresh(Repr - old(Repr))
      ensures View() == old(View()).(haveCache := true)
    {
      hide Connection.View, Connection.Valid, Session.View, Session.Valid, WellKept;
      haveMsgCache := true;
    }

    ghost method Book(entry: Ledger)
      requires Valid()
      modifies Repr
      ensures Valid() && fresh(Repr - old(Repr))
      ensures View() == old(View()).(ledger := entry)
    {
      hide Connection.View, Connection.Valid, Session.View, Session.Valid, WellKept;
      ledger := entry;
    }

    // ---- Closing and sending -------------------------------------------------------------------

    /** Disconnects the client. If the handshake is not done, disconnects the server too. */
    method DropClient()
      requires Valid()
      modifies Repr
      ensures Valid() && fresh(Repr - old(Repr))
      ensures View() == Machine.DropClient(old(View()))
    {
      hide View, Valid, Machine.Shutdown;
      ShutdownClient();
      if !ServerFlags().Done() {
        ShutdownServer();
      }
    }

    /** Drops both connections. */
    method Reset()
      requires Valid()
      modifies Repr
      ensures Valid() && fresh(Repr - old(Repr))
      ensures View() == Machine.Reset(old(View()))
    {
      hide View, Valid, Machine.Shutdown;
      ShutdownClient();
      ShutdownServer();
    }

    method SendServer(msg: Message) returns (ok: bool)
      requires Valid()
      modifies Repr
      ensures Valid() && fresh(Repr - old(Repr))
      ensures (View(), ok) == Machine.SendServer(env, old(View()), msg)
    {
      hide View, Valid, Machine.Reset, SessionFromClient;
      if ServerIsClosed() { return false; }
      ok := Attempt();
      if !ok {
        Reset();
      } else {
        TellServer(msg);
      }
    }

    method SendClient(msg: Message) returns (ok: bool)
      requires Valid() && Indexable(msg)
      modifies Repr
      ensures Valid() && fresh(Repr - old(Repr))
      ensures (View(), ok) == Machine.SendClient(env, old(View()), msg)
      ensures ok ==> SameStates(old(client.session.channels.channels), client.session.channels.channels)
      ensures ok ==> SameStates(old(preLog.channels.channels), preLog.channels.channels)
    {
      hide View, Valid, Machine.DropClient, SessionFromServer, SameStates;
      if ClientIsClosed() { return false; }
      ok := Attempt();
      if !ok {
        DropClient();
      } else {
        TellClient(msg);
      }
    }

    /** The loop over the messages of the welcome sequence. */
    method SendAll(messages: seq<Message>) returns (ok: bool)
      requires Valid() && forall m | m in messages :: Indexable(m)
      modifies Repr
      ensures Valid() && fresh(Repr - old(Repr))
      ensures (View(), ok) == Machine.SendAll(env, old(View()), messages)
    {
      hide View, Valid, Machine.SendClient;
      assert messages[0..] == messages;
      for i := 0 to |messages|
        invariant Valid() && fresh(Repr - old(Repr))
        invariant Machine.SendAll(env, View(), messages[i..]) ==
                  Machine.SendAll(env, old(View()), messages)
      {
        assert messages[i..][0] == messages[i] && messages[i..][1..] == messages[i + 1..];
        assert messages[i] in messages;
        ok := SendClient(messages[i]);
        if !ok { return; }
      }
      return true;
    }

    // ---- The log ---------------------------------------------------------------------------------

    method AppendToLog(name: string, msg: Message)
      requires Valid() && Loggably(name, msg)
      modifies Repr
      ensures Valid() && fresh(Repr - old(Repr))
      ensures View() == old(View()).(logs := Appended(old(View()).logs, name, msg))
    {
      hide Connection.View, Connection.Valid, Session.View, Session.Valid, WellKept;
      LogKeepsWellKept(messagelogs.channels, msg);
      var chLog := messagelogs.GetChannel(name);
      chLog.LogMessage(msg);
    }

    method ClearLog(chLog: Ephemeral.ChannelLog)
      requires Valid() && chLog.store == messagelogs
      modifies Repr
      ensures Valid() && fresh(Repr - old(Repr))
      ensures View() == old(View()).(logs := Cleared(old(View()).logs, chLog.name))
    {
      hide Connection.View, Connection.Valid, Session.View, Session.Valid;
      chLog.Clear();
    }

    /** Not all messages are logged. */
    method LogMessage(msg: Message)
      requires Valid() && IsValid(msg) && Indexable(msg)
      modifies Repr
      ensures Valid() && fresh(Repr - old(Repr))
      ensures View() == Machine.LogMessage(old(View()), msg)
    {
      hide View, Valid, IsValid;
      match msg.command {
        case Quit => return;
        case Privmsg | Notice | Join | Kick | Part | Nick => AppendToLog(msg.params[0], msg);
        case _ => return;
      }
    }

    lemma LogIsIndexable(name: string)
      requires Valid()
      ensures messagelogs in Repr && View().logs == messagelogs.channels
      ensures forall m | m in LogOf(View().logs, name) :: Indexable(m)
    {
      hide Connection.View, Connection.Valid, Session.View, Session.Valid;
      assert forall m | m in LogOf(View().logs, name) :: Loggably(name, m);
    }

    /** Sends message `i` of a replay of `ms` and books what becomes of it. */
    method SendLogged(ghost name: string, ghost ms: seq<Message>, ghost i: nat, msg: Message) returns (ok: bool)
      requires Valid() && Indexable(msg) && i < |ms| && ms[i] == msg
      modifies Repr
      ensures Valid() && fresh(Repr - old(Repr))
      ensures ReplayFrom(env, old(View()), name, ms, i) ==
              if ok then ReplayFrom(env, View(), name, ms, i + 1) else View()
    {
      hide View, Valid, Machine.SendClient;
      ok := SendClient(msg);
      ghost var l := View().ledger;
      Book(if ok then l.(replayed := l.replayed + multiset{msg}) else l.(cut := l.cut + multiset(ms[..i])));
    }

    method ReplayLog(name: string)
      requires Valid()
      modifies Repr
      ensures Valid() && fresh(Repr - old(Repr))
      ensures View() == Machine.Replay(env, old(View()), name)
    {
      hide View, Valid, Indexable, ReplayFrom, LogOf, Cleared, Ephemeral.Cursor.Rest;
      ghost var start, ms := View(), LogOf(View().logs, name);
      LogIsIndexable(name);
      var chLog := messagelogs.GetChannel(name);
      var cursor := chLog.Replay();
      var msg := cursor.Get();
      while msg.Some?
        invariant Valid() && fresh(Repr - old(Repr)) && fresh(cursor) && cursor !in Repr
        invariant cursor.i <= |ms| && cursor.msgs == ms
        invariant msg == if cursor.i == |ms| then None else Some(ms[cursor.i])
        invariant ReplayFrom(env, View(), name, ms, cursor.i) == ReplayFrom(env, start, name, ms, 0)
        decreases |ms| - cursor.i
      {
        var ok := SendLogged(name, ms, cursor.i, msg.value);
        if !ok { return; }
        cursor.Next();
        msg := cursor.Get();
      }
      ReplayEnds(env, View(), name, ms);
      ClearLog(chLog);
    }

    lemma FieldsAreViews()
      requires Valid()
      ensures View().serverPrefix == serverPrefix
      ensures View().haveCache == haveMsgCache && View().cache == msgCache
    {
    }

    // ---- Rejoining a channel ---------------------------------------------------------------------

    /** The JOIN and the topic of a rejoin. */
    method SendJoinAndTopic(name: string, preLogState: ChannelState) returns (ok: bool)
      requires Valid() && PreLogHolds(name, preLogState) && !ClientIsClosed()
      modifies Repr
      ensures Valid() && fresh(Repr - old(Repr))
      ensures (View(), ok) == SendJoin(env, old(View()), name)
      ensures ok ==> PreLogHolds(name, preLogState)
      ensures ok ==> UsersIn(View().preLog, name) == Roster(old(View()), name)
    {
      hide View, Valid, Machine.SendClient, Print, Roster, UsersIn, TopicMessage, TouchPreLog;
      ghost var s := View();
      StatesAreViews(name, preLogState);
      TouchIsIdle(s, name);
      RosterAfterJoin(env, s, name);
      SentAbout(env, s, JoinMessage(s, name), name);
      ok := SendClient(Message(Print(ClientId()), Join, [name]));
      if !ok { return; }
      StatesAreViews(name, preLogState);
      if preLogState.topic != "" {
        TopicKeepsUsers(env, View(), name);
        ok := SendTopic(name, preLogState);
      }
    }

    method SendTopic(name: string, preLogState: ChannelState) returns (ok: bool)
      requires Valid() && PreLogHolds(name, preLogState)
      modifies Repr
      ensures Valid() && fresh(Repr - old(Repr))
      ensures (View(), ok) == Machine.SendClient(env, old(View()), TopicMessage(old(View()), name))
      ensures ok ==> PreLogHolds(name, preLogState)
    {
      hide View, Valid, Machine.SendClient, Print;
      ghost var s := View();
      StatesAreViews(name, preLogState);
      FieldsAreViews();
      SentAbout(env, s, TopicMessage(s, name), name);
      ok := SendClient(Message(serverPrefix, RplTopic, [Print(ClientId()), name, preLogState.topic]));
      StatesAreViews(name, preLogState);
    }

    /** The loop over the users of a rejoin. */
    method SendNames(name: string, clientState: ChannelState, names: seq<string>) returns (ok: bool)
      requires Valid() && ClientHolds(name, clientState) && !ClientIsClosed()
      modifies Repr
      ensures Valid() && fresh(Repr - old(Repr))
      ensures var s := old(View());
              (View(), ok) == Machine.SendNames(env, s, name, s.server.session.id.nick, names)
    {
      hide View, Valid, Machine.SendClient, Machine.AddClientUser, ClientHolds;
      var myNick := ServerId().nick;
      ghost var s := View();
      assert names[0..] == names;
      for i := 0 to |names|
        invariant Valid() && fresh(Repr - old(Repr)) && ClientHolds(name, clientState)
        invariant Machine.SendNames(env, View(), name, myNick, names[i..]) ==
                  Machine.SendNames(env, s, name, myNick, names)
      {
        assert names[i..][0] == names[i] && names[i..][1..] == names[i + 1..];
        ok := SendName(name, clientState, myNick, names[i]);
        if !ok { return; }
      }
      return true;
    }

    method SendName(name: string, clientState: ChannelState, myNick: string, nick: string) returns (ok: bool)
      requires Valid() && ClientHolds(name, clientState)
      modifies Repr
      ensures Valid() && fresh(Repr - old(Repr))
      ensures var s := old(View());
              var (t, sent) := Machine.SendClient(env, s, NamesMessage(s.serverPrefix, myNick, name, nick));
              ok == sent && View() == if ok then Machine.AddClientUser(t, name, nick) else t
      ensures ok ==> ClientHolds(name, clientState)
    {
      hide View, Valid, Machine.SendClient, Machine.AddClientUser;
      ghost var s := View();
      FieldsAreViews();
      ok := SendClient(Message(serverPrefix, RplNamereply, [myNick, "=", name, nick]));
      if ok {
        SentAbout(env, s, NamesMessage(s.serverPrefix, myNick, name, nick), name);
        StatesAreViews(name, clientState);
        AddClientUser(name, clientState, nick);
      }
    }

    method SendEndOfNames(name: string) returns (ok: bool)
      requires Valid()
      modifies Repr
      ensures Valid() && fresh(Repr - old(Repr))
      ensures (View(), ok) == Machine.SendClient(env, old(View()), EndOfNamesMessage(old(View()), name))
    {
      hide View, Valid, Machine.SendClient;
      FieldsAreViews();
      ok := SendClient(Message(serverPrefix, RplEndofnames, [ServerId().nick, name, "End of NAMES list"]));
    }

    /** The client rejoins a channel that the server has us in. `preLogState` is the state
        of the channel from before the log; `order` is the order the users came in. */
    method RejoinChannel(name: string, preLogState: ChannelState) returns (ghost order: seq<string>)
      requires Valid() && PreLogHolds(name, preLogState) && !ClientIsClosed()
      modifies Repr
      ensures Valid() && fresh(Repr - old(Repr))
      ensures View() == Rejoin(env, old(View()), name, order)
      ensures Enumerates(order, Roster(old(View()), name))
    {
      hide View, Valid, Machine.SendClient, SendJoin, Machine.SendNames, Replay, Roster, TouchClient,
           EndOfNamesMessage, Enumerates, ClientHolds;
      ghost var s := View();
      order := SomeOrder(Roster(s, name));
      var ok := SendJoinAndTopic(name, preLogState);
      if !ok { return; }
      ghost var t := View();
      var clientState := GetClientChannel(name);
      var names := ListUsers(name, preLogState, s, t);
      order := names;
      ok := SendNames(name, clientState, names);
      if !ok { return; }
      ok := SendEndOfNames(name);
      if ok {
        ReplayLog(name);
      }
    }

    /** The users to be listed, once the JOIN is out and the client's channel is at hand. */
    method ListUsers(name: string, preLogState: ChannelState, ghost s: State, ghost t: State)
      returns (names: seq<string>)
      requires Valid() && PreLogHolds(name, preLogState)
      requires View() == TouchClient(t, name) && (t, true) == SendJoin(env, s, name)
      requires UsersIn(t.preLog, name) == Roster(s, name)
      ensures Enumerates(names, Roster(s, name))
      ensures View().client.open && View().server.session.id == t.server.session.id
    {
      hide View, Valid, SendJoin, Roster, Enumerates;
      TouchedIsOpen(env, s, t, name);
      StatesAreViews(name, preLogState);
      names := preLogState.Users();
    }

    // ---- Messages from the client ------------------------------------------------------------------

    method WelcomeBack()
      requires Valid()
      modifies Repr
      ensures Valid() && fresh(Repr - old(Repr))
      ensures View() == Machine.WelcomeBack(env, old(View()))
    {
      hide View, Valid, Machine.SendAll, Machine.SendServer, Print;
      FieldsAreViews();
      var nick := ServerId().nick;
      var messages := [
        Message(serverPrefix, RplWelcome,
                [nick, "Welcome back to IRC Idler, " + Print(ServerId())]),
        Message(serverPrefix, RplYourhost, [nick, msgCache.yourhost]),
        Message(serverPrefix, RplCreated, [nick, msgCache.created]),
        Message(serverPrefix, RplMyinfo, [nick] + msgCache.myinfo)];
      var ok := SendAll(messages);
      if !ok { return; }
      SetClientId(ServerId());
      var sent := SendServer(Message("", Motd, []));
    }

    /** A message sent by the client during a handshake. */
    method HandleHandshakeMessage(msg: Message)
      requires Valid()
      modifies Repr
      ensures Valid() && fresh(Repr - old(Repr))
      ensures View() == HandleHandshake(env, old(View()), msg)
    {
      hide View, Valid, Machine.SendServer, Machine.WelcomeBack, Machine.Reset;
      match msg.command {
        case Pass | User | Nick =>
          if !ServerFlags().Done() {
            var ok := SendServer(msg);
            return;
          }
          if ServerFlags().Done() && ClientFlags().WantsWelcome() {
            FieldsAreViews();
            if !haveMsgCache {
              Reset();
              return;
            }
            WelcomeBack();
          }
        case _ =>
      }
    }

    method HandleClientCommand(msg: Message) returns (ghost order: seq<string>)
      requires Valid() && IsValid(msg) && !ClientIsClosed()
      modifies Repr
      ensures Valid() && fresh(Repr - old(Repr))
      ensures View() == HandleCommand(env, old(View()), msg, order)
      ensures msg.command.Join? ==> Enumerates(order, Roster(old(View()), msg.Param(0)))
    {
      hide View, Valid, Machine.SendServer, Machine.SendClient, Machine.DropClient, Rejoin, Roster,
           Enumerates;
      order := SomeOrder(Roster(View(), msg.Param(0)));
      match msg.command {
        case Ping => var ok := SendClient(msg.(prefix := "", command := Pong));
        case Pong =>
        case Quit => DropClient();
        case Join => order := HandleJoin(msg);
        case _ => var ok := SendServer(msg);
      }
    }

    method HandleJoin(msg: Message) returns (ghost order: seq<string>)
      requires Valid() && IsValid(msg) && msg.command.Join? && !ClientIsClosed()
      modifies Repr
      ensures Valid() && fresh(Repr - old(Repr))
      ensures View() == HandleCommand(env, old(View()), msg, order)
      ensures Enumerates(order, Roster(old(View()), msg.Param(0)))
    {
      hide View, Valid, Machine.SendServer, Machine.SendClient, Rejoin, Roster, Enumerates, TouchPreLog;
      ghost var s := View();
      var channelName := msg.params[0];
      order := SomeOrder(Roster(s, channelName));
      if ClientHas(channelName) { return; }
      if ServerHas(channelName) {
        TouchedRejoin(env, s, channelName);
        var preLogState := GetPreLogChannel(channelName);
        order := RejoinChannel(channelName, preLogState);
      } else {
        var ok := SendServer(msg);
      }
    }

    method HandleClientEvent(msg: Message) returns (ghost order: seq<string>)
      requires Valid() && !ClientIsClosed()
      modifies Repr
      ensures Valid() && fresh(Repr - old(Repr))
      ensures View() == HandleClient(env, old(View()), msg, order)
      ensures msg.command.Join? && IsValid(msg) ==> Enumerates(order, Roster(old(View()), msg.Param(0)))
    {
      hide View, Valid, Machine.SendClient, Machine.DropClient, HandleHandshake, HandleCommand, Enumerates,
           Validate;
      ghost var s := View();
      order := SomeOrder(Roster(s, msg.Param(0)));
      var err := Validate(msg);
      if err.Some? {
        var ok := SendClient(err.value);
        DropClient();
        return;
      }
      HearClient(msg);
      assert Roster(View(), msg.Param(0)) == Roster(s, msg.Param(0));
      if !ClientFlags().Done() {
        HandleHandshakeMessage(msg);
        return;
      }
      order := HandleClientCommand(msg);
    }

    // ---- Messages from the server ------------------------------------------------------------------

    /** Sends the message on to the client, or logs it if that fails. */
    method Relay(msg: Message)
      requires Valid() && IsValid(msg) && Indexable(msg)
      modifies Repr
      ensures Valid() && fresh(Repr - old(Repr))
      ensures View() == Machine.Relay(env, old(View()), msg)
    {
      hide View, Valid, Machine.SendClient, Machine.LogMessage, IsValid, Indexable;
      var ok := SendClient(msg);
      if !ok {
        LogMessage(msg);
      } else if Loggable(msg.command) {
        Book(View().ledger.(relayed := View().ledger.relayed + multiset{msg}));
      }
    }

    method Welcome(msg: Message)
      requires Valid() && IsValid(msg) && msg.command.RplWelcome?
      modifies Repr
      ensures Valid() && fresh(Repr - old(Repr))
      ensures View() == Machine.Welcome(env, old(View()), msg)
    {
      hide View, Valid, Machine.SendClient, Machine.Reset, Parse, Split;
      SetServerPrefix(msg.prefix);
      var parts := Split(msg.params[1], ' ');
      var clientId := Parse(parts[|parts| - 1]);
      if clientId.None? {
        Reset();
        return;
      }
      SetServerId(clientId.value);
      var ok := SendClient(msg);
      if ok {
        SetClientId(clientId.value);
      }
    }

    /** The cases that record part of the welcome sequence. */
    method CacheWelcome(msg: Message)
      requires Valid() && IsValid(msg)
      requires msg.command.RplYourhost? || msg.command.RplCreated? || msg.command.RplMyinfo?
      modifies Repr
      ensures Valid() && fresh(Repr - old(Repr))
      ensures View() == HandleReply(env, old(View()), msg)
    {
      hide View, Valid, Machine.SendClient, Machine.SendServer, Machine.Relay, Machine.LogMessage, Replay,
           Machine.Welcome, Indexable;
      assert Indexable(msg) by { NotIndexed(msg); }
      FieldsAreViews();
      match msg.command {
        case RplYourhost => SetCache(msgCache.(yourhost := msg.params[1]));
        case RplCreated => SetCache(msgCache.(created := msg.params[1]));
        case RplMyinfo => SetCache(msgCache.(myinfo := msg.params[1..]));
      }
      var ok := SendClient(msg);
      if msg.command.RplMyinfo? {
        SetHaveMsgCache();
      }
    }

    /** The cases that are followed by a replay. */
    method SendThenReplay(msg: Message)
      requires Valid() && IsValid(msg)
      requires EndsMotd(msg.command) || msg.command.RplEndofnames?
      modifies Repr
      ensures Valid() && fresh(Repr - old(Repr))
      ensures View() == HandleReply(env, old(View()), msg)
    {
      hide View, Valid, Machine.SendClient, Machine.SendServer, Machine.Relay, Machine.LogMessage, Replay,
           Machine.Welcome, Indexable;
      assert Indexable(msg) by { NotIndexed(msg); }
      var ok := SendClient(msg);
      if msg.command.RplEndofnames? {
        ReplayLog(msg.params[1]);
      } else {
        ReplayLog(ClientId().nick);
      }
    }

    predicate ClientIsMe(prefix: string)
      requires Valid()
      reads this, Repr
      ensures ClientIsMe(prefix) <==> Views.IsMe(View().client.session, prefix)
    {
      client.IsMe(prefix)
    }

    /** The cases that are passed on or logged. */
    method PassOn(msg: Message)
      requires Valid() && IsValid(msg) && Indexable(msg)
      requires Loggable(msg.command) || msg.command.Quit?
      modifies Repr
      ensures Valid() && fresh(Repr - old(Repr))
      ensures View() == HandleReply(env, old(View()), msg)
    {
      hide View, Valid, Machine.Relay, Machine.LogMessage, Machine.SendClient, Machine.SendServer, Replay,
           Machine.Welcome, Validate, Views.IsMe;
      var here: bool;
      if msg.command.Privmsg? || msg.command.Notice? {
        var targetName := msg.params[0];
        here := ClientHas(targetName) || ClientIsMe(targetName);
      } else {
        here := ClientFlags().Done();
      }
      if here {
        Relay(msg);
      } else {
        LogMessage(msg);
      }
    }

    method HandleServerCommand(msg: Message)
      requires Valid() && IsValid(msg) && Indexable(msg)
      modifies Repr
      ensures Valid() && fresh(Repr - old(Repr))
      ensures View() == HandleReply(env, old(View()), msg)
    {
      hide View, Valid, Machine.SendServer, Machine.SendClient, Machine.Relay, Machine.LogMessage,
           Machine.Welcome, Replay, IsValid, Indexable;
      match msg.command {
        case Ping => var ok := SendServer(msg.(prefix := "", command := Pong));
        case Pong =>
        case RplMotdstart | RplMotd | RplNamereply | RplTopic
           | ErrNonicknamegiven | ErrErroneusnickname | ErrNicknameinuse | ErrNickcollision =>
          var ok := SendClient(msg);
        case RplWelcome => Welcome(msg);
        case RplYourhost | RplCreated | RplMyinfo => CacheWelcome(msg);
        case RplEndofmotd | ErrNomotd | RplEndofnames => SendThenReplay(msg);
        case Privmsg | Notice | Join | Kick | Part | Quit | Nick => PassOn(msg);
        case _ => Relay(msg);
      }
    }

    method HandleServerEvent(msg: Message)
      requires Valid() && (IsValid(msg) ==> Indexable(msg))
      modifies Repr
      ensures Valid() && fresh(Repr - old(Repr))
      ensures View() == HandleServer(env, old(View()), msg)
    {
      hide View, Valid, Machine.Reset, HandleReply, Indexable, Track, Validate;
      if Validate(msg).Some? {
        Reset();
        return;
      }
      HearServer(msg);
      HandleServerCommand(msg);
    }

    // ---- The clock ----------------------------------------------------------------------------------

    predicate ClientMustDrop(now: int)
      requires Valid()
      reads this, Repr
      ensures ClientMustDrop(now) <==> MustDrop(View().client, now)
    {
      !client.IsClosed() && client.pingSent && now > client.dropDeadline
    }

    predicate ClientMustPing(now: int)
      requires Valid()
      reads this, Repr
      ensures ClientMustPing(now) <==> MustPing(View().client, now)
    {
      !client.IsClosed() && !client.pingSent && now > client.pingDeadline
    }

    predicate ServerMustDrop(now: int)
      requires Valid()
      reads this, Repr
      ensures ServerMustDrop(now) <==> MustDrop(View().server, now)
    {
      !server.IsClosed() && server.pingSent && now > server.dropDeadline
    }

    predicate ServerMustPing(now: int)
      requires Valid()
      reads this, Repr
      ensures ServerMustPing(now) <==> MustPing(View().server, now)
    {
      !server.IsClosed() && !server.pingSent && now > server.pingDeadline
    }

    /** `checkTimeout` for the client's connection. */
    method CheckClientTimeout(now: int)
      requires Valid()
      modifies Repr
      ensures Valid() && fresh(Repr - old(Repr))
      ensures View() == CheckClient(env, old(View()), now)
    {
      hide View, Valid, Machine.SendClient, Machine.DropClient, MustDrop, MustPing;
      if ClientMustDrop(now) {
        DropClient();
      } else if ClientMustPing(now) {
        var ok := SendClient(Message("", Ping, ["irc-idler"]));
        MarkClientPinged(now);
      }
    }

    /** `checkTimeout` for the server's connection. */
    method CheckServerTimeout(now: int)
      requires Valid()
      modifies Repr
      ensures Valid() && fresh(Repr - old(Repr))
      ensures View() == CheckServer(env, old(View()), now)
    {
      hide View, Valid, Machine.SendServer, Machine.Reset, MustDrop, MustPing;
      if ServerMustDrop(now) {
        Reset();
      } else if ServerMustPing(now) {
        var ok := SendServer(Message("", Ping, ["irc-idler"]));
        MarkServerPinged(now);
      }
    }

    // ---- The event loop -------------------------------------------------------------------------------

    /** One turn of the loop for each kind of event. What the method returns completes the
        event: the order in which a rejoin listed the users. */
    method OnClientMessage(msg: Message, now: int) returns (ghost e: Event)
      requires Valid() && !ClientIsClosed()
      modifies Repr
      ensures Valid() && fresh(Repr - old(Repr))
      ensures e.ClientMessage? && e.message == msg && e.now == now && Enabled(old(View()), e)
      ensures View() == Step(env, old(View()), e)
    {
      hide View, Valid, HandleClient, Enumerates, IsValid;
      ghost var s := View();
      RenewClient(now);
      assert Roster(View(), msg.Param(0)) == Roster(s, msg.Param(0));
      ghost var order := HandleClientEvent(msg);
      e := ClientMessage(msg, order, now);
    }

    method OnClientClosed(now: int)
      requires Valid() && !ClientIsClosed()
      modifies Repr
      ensures Valid() && fresh(Repr - old(Repr))
      ensures View() == Step(env, old(View()), ClientClosed(now))
    {
      hide View, Valid, Machine.DropClient;
      RenewClient(now);
      DropClient();
    }

    method OnServerMessage(msg: Message, now: int)
      requires Valid() && !ServerIsClosed() && (IsValid(msg) ==> Indexable(msg))
      modifies Repr
      ensures Valid() && fresh(Repr - old(Repr))
      ensures View() == Step(env, old(View()), ServerMessage(msg, now))
    {
      hide View, Valid, HandleServer, IsValid, Indexable;
      RenewServer(now);
      HandleServerEvent(msg);
    }

    method OnServerClosed(now: int)
      requires Valid() && !ServerIsClosed()
      modifies Repr
      ensures Valid() && fresh(Repr - old(Repr))
      ensures View() == Step(env, old(View()), ServerClosed(now))
    {
      hide View, Valid, Machine.Reset;
      RenewServer(now);
      Reset();
    }

    method OnTick(clientNow: int, serverNow: int)
      requires Valid()
      modifies Repr
      ensures Valid() && fresh(Repr - old(Repr))
      ensures View() == Step(env, old(View()), Tick(clientNow, serverNow))
    {
      hide View, Valid, CheckClient, CheckServer;
      CheckClientTimeout(clientNow);
      CheckServerTimeout(serverNow);
    }

    /** `connected`: whether dialling the server works out, should it come to that. */
    method OnNewClient(connected: bool, clientNow: int, serverNow: int)
      requires Valid()
      modifies Repr
      ensures Valid() && fresh(Repr - old(Repr))
      ensures View() == Step(env, old(View()), NewClient(connected, clientNow, serverNow))
    {
      hide View, Valid, Machine.DropClient, Machine.Setup;
      DropClient();
      SetupClient(clientNow);
      if ServerIsClosed() {
        if !connected {
          DropClient();
        } else {
          SetupServer(serverNow);
        }
      }
    }

    method OnStop()
      requires Valid()
      modifies Repr
      ensures Valid() && fresh(Repr - old(Repr))
      ensures View() == Step(env, old(View()), Stop)
    {
      hide View, Valid, Machine.Reset;
      Reset();
    }

    /** One choice of the loop's `select`; a closed connection is never chosen. */
    method Turn(input: Input) returns (ghost happened: Option<Event>)
      requires Valid() && IsRead(input)
      modifies Repr
      ensures Valid() && fresh(Repr - old(Repr))
      ensures Answers(old(View()), input, happened)
      ensures happened.None? ==> View() == old(View())
      ensures happened.Some? ==>
                Enabled(old(View()), happened.value) && View() == Step(env, old(View()), happened.value)
    {
      hide View, Valid, Step, Indexable, IsValid;
      happened := None;
      match input {
        case FromClient(m, now) =>
          if !ClientIsClosed() {
            ghost var e := OnClientMessage(m, now);
            happened := Some(e);
          }
        case ClientGone(now) =>
          if !ClientIsClosed() {
            OnClientClosed(now);
            happened := Some(ClientClosed(now));
          }
        case FromServer(m, now) =>
          if !ServerIsClosed() {
            OnServerMessage(m, now);
            happened := Some(ServerMessage(m, now));
          }
        case ServerGone(now) =>
          if !ServerIsClosed() {
            OnServerClosed(now);
            happened := Some(ServerClosed(now));
          }
        case Ticked(clientNow, serverNow) =>
          OnTick(clientNow, serverNow);
          happened := Some(Tick(clientNow, serverNow));
        case Dialled(connected, clientNow, serverNow) =>
          OnNewClient(connected, clientNow, serverNow);
          happened := Some(NewClient(connected, clientNow, serverNow));
        case Stopped =>
          OnStop();
          happened := Some(Stop);
      }
    }

    /** The daemon's loop, until it is stopped or `inputs` are used up. What it does is the run
        of the transition system that answers the inputs it reads, and it is safe wherever
        it gets to. */
    method Run(inputs: seq<Input>) returns (ghost states: seq<State>, ghost events: seq<Event>)
      requires Valid() && forall input | input in inputs :: IsRead(input)
      modifies Repr
      ensures Valid() && fresh(Repr - old(Repr))
      ensures IsRun(env, states, events) && AnswersAll(UntilStop(inputs), states, events)
      ensures states[0] == old(View()) && states[|events|] == View()
      ensures Safe(old(View())) ==> Safe(View())
    {
      hide View, Valid, Step, Enabled, Safe, Answers, AnswersAll;
      states, events := [View()], [];
      AnsweredNothing(View());
      for i := 0 to |inputs|
        invariant Valid() && fresh(Repr - old(Repr))
        invariant AnswersAll(inputs[..i], states, events) && forall j | 0 <= j < i :: !inputs[j].Stopped?
        invariant IsRun(env, states, events) && states[0] == old(View()) && states[|events|] == View()
        invariant Safe(old(View())) ==> Safe(View())
      {
        assert inputs[i] in inputs;
        ghost var before := View();
        ghost var happened := Turn(inputs[i]);
        AnsweredOneMore(inputs[..i], states, events, inputs[i], happened, View());
        assert inputs[..i + 1] == inputs[..i] + [inputs[i]];
        if happened.Some? {
          RunExtends(env, states, events, happened.value, View());
          if Safe(before) { StepKeepsSafe(env, before, happened.value); }
          states, events := states + [View()], events + [happened.value];
        }
        if inputs[i].Stopped? {
          ReadUpTo(inputs, i);
          return;
        }
      }
      ReadUpTo(inputs, |inputs|);
      assert inputs[..|inputs|] == inputs;
    }
  }

  lemma AnsweredNothing(s: State)
    ensures AnswersAll([], [s], [])
  {
  }

  lemma RunExtends(env: Env, states: seq<State>, events: seq<Event>, e: Event, t: State)
    requires IsRun(env, states, events)
    requires Enabled(states[|events|], e) && t == Step(env, states[|events|], e)
    ensures IsRun(env, states + [t], events + [e])
  {
    hide Step, Enabled;
    var states', events' := states + [t], events + [e];
    forall i | 0 <= i < |events'|
      ensures Enabled(states'[i], events'[i]) && states'[i + 1] == Step(env, states'[i], events'[i])
    {
      if i < |events| {
        assert states'[i] == states[i] && states'[i + 1] == states[i + 1] && events'[i] == events[i];
      }
    }
  }

  lemma ReplayEnds(env: Env, s: State, name: string, ms: seq<Message>)
    ensures ReplayFrom(env, s, name, ms, |ms|) == s.(logs := Cleared(s.logs, name))
  {
  }

  lemma NotIndexed(m: Message)
    requires EndsMotd(m.command) || m.command.RplEndofnames? || m.command.RplYourhost?
             || m.command.RplCreated? || m.command.RplMyinfo?
    ensures Indexable(m)
  {
  }

  lemma RosterAfterJoin(env: Env, s: State, name: string)
    ensures var (t, ok) := Machine.SendClient(env, TouchPreLog(s, name), JoinMessage(s, name));
            ok ==> UsersIn(t.preLog, name) == Roster(s, name)
  {
    hide Machine.SendClient, SessionFromServer, NickOf;
    SentAbout(env, TouchPreLog(s, name), JoinMessage(s, name), name);
  }

  lemma TouchedRejoin(env: Env, s: State, name: string)
    ensures forall order :: Rejoin(env, TouchPreLog(s, name), name, order) == Rejoin(env, s, name, order)
    ensures Roster(TouchPreLog(s, name), name) == Roster(s, name)
    ensures name in TouchPreLog(s, name).preLog.channels
    ensures TouchPreLog(s, name).client == s.client
  {
    hide Machine.SendClient, Machine.SendNames, Replay;
    assert TouchPreLog(TouchPreLog(s, name), name) == TouchPreLog(s, name);
    assert JoinMessage(TouchPreLog(s, name), name) == JoinMessage(s, name);
    assert SendJoin(env, TouchPreLog(s, name), name) == SendJoin(env, s, name);
  }

  lemma TouchIsIdle(s: State, name: string)
    requires name in s.preLog.channels
    ensures TouchPreLog(s, name) == s
  {
  }

  lemma TopicKeepsUsers(env: Env, s: State, name: string)
    ensures var (t, ok) := Machine.SendClient(env, s, TopicMessage(s, name));
            ok ==> UsersIn(t.preLog, name) == UsersIn(s.preLog, name)
  {
    hide Machine.SendClient;
    SentAbout(env, s, TopicMessage(s, name), name);
  }

  lemma TouchedIsOpen(env: Env, s: State, t: State, name: string)
    requires (t, true) == SendJoin(env, s, name)
    ensures TouchClient(t, name).client.open && TouchClient(t, name).preLog == t.preLog
    ensures TouchClient(t, name).server.session.id == t.server.session.id
  {
    hide Machine.SendClient, JoinMessage, TopicMessage;
    Sent(env, TouchPreLog(s, name), JoinMessage(s, name));
    var u := Machine.SendClient(env, TouchPreLog(s, name), JoinMessage(s, name)).0;
    Sent(env, u, TopicMessage(u, name));
  }

  /** Any set can be listed. */
  lemma SomeOrder(s: set<string>) returns (order: seq<string>)
    ensures Enumerates(order, s)
  {
    if s == {} { return []; }
    var x :| x in s;
    var rest := SomeOrder(s - {x});
    order := [x] + rest;
  }
}

/** No message that belongs in a log is lost, and none is sent twice unless a replay was
    broken off: the books of a run balance, and they are the whole history of what was
    written, but for the JOINs that rejoins begin with. */
module Conservation {
  import opened Messages
  import opened Views
  import opened Logs
  import opened Machine
  import opened Safety

  /** How often `m` waits in the log it belongs to. */
  function Waiting(logs: Log, m: Message): nat
  {
    multiset(LogOf(logs, m.Param(0)))[m]
  }

  /** How often `m` was written. */
  function Times(written: seq<Message>, m: Message): nat { multiset(written)[m] }

  /** The store at the start of a run, the loggable messages that arrived in it, and the
      JOINs that rejoins began with. */
  datatype Base = Base(stock: Log, arrived: multiset<Message>, introduced: multiset<Message>)

  function Arrival(base: Base, m: Message): Base
  {
    if Loggable(m.command) then base.(arrived := base.arrived + multiset{m}) else base
  }

  /** What came in and what went out or waits, up to the messages a replay in progress is
      `ahead` by and those that are `owed` because their fate is still being decided.
      `base` says what the run started from and what has arrived since. */
  ghost predicate Balanced(l: Ledger, logs: Log, base: Base, ahead: multiset<Message>, owed: multiset<Message>)
  {
    && (forall m: Message {:trigger l.received[m]} | Loggable(m.command) ::
          l.received[m] + Waiting(base.stock, m) + l.cut[m] + ahead[m] ==
          l.relayed[m] + l.replayed[m] + Waiting(logs, m) + owed[m])
    && l.cut + ahead <= l.replayed
    && l.received == base.arrived
  }

  /** What has been written to clients is what the books call relayed or replayed, and the
      introductions; these are JOINs. */
  ghost predicate Delivered(l: Ledger, toClient: seq<Message>, introduced: multiset<Message>)
  {
    && (forall m: Message | Loggable(m.command) ::
          Times(toClient, m) == l.relayed[m] + l.replayed[m] + introduced[m])
    && (forall m | m in introduced :: m.command.Join?)
  }

  ghost predicate BooksOk(s: State, base: Base)
  {
    && Balanced(s.ledger, s.logs, base, multiset{}, multiset{})
    && Delivered(s.ledger, s.toClient, base.introduced)
    && WellKept(s.logs)
  }

  /** Nothing was booked between `s` and `t`, and nothing sent that would have to be. */
  ghost predicate SameBooks(s: State, t: State)
  {
    && t.ledger == s.ledger && t.logs == s.logs
    && forall m: Message | Loggable(m.command) :: Times(t.toClient, m) == Times(s.toClient, m)
  }

  // ---- Steps that book nothing --------------------------------------------------------

  lemma Onward(s: State, t: State, u: State)
    requires SameBooks(s, t) && SameBooks(t, u)
    ensures SameBooks(s, u)
  {
  }

  /** Only the two connections differ. */
  lemma ConnectionsBookNothing(s: State, client: Conn, server: Conn)
    ensures SameBooks(s, s.(client := client, server := server))
  {
  }

  lemma ClosingBooksNothing(s: State)
    ensures SameBooks(s, DropClient(s)) && SameBooks(s, Reset(s))
  {
  }

  /** What a send to the client adds to the history. */
  lemma SendIsWritten(env: Env, s: State, m: Message)
    ensures var (t, ok) := SendClient(env, s, m);
            && t.ledger == s.ledger && t.logs == s.logs
            && forall k :: Times(t.toClient, k) == Times(s.toClient, k) + if ok && k == m then 1 else 0
  {
    hide SendClient;
    Sent(env, s, m);
    assert multiset(s.toClient + [m]) == multiset(s.toClient) + multiset{m};
  }

  lemma SendBooksNothing(env: Env, s: State, m: Message)
    requires !Loggable(m.command)
    ensures SameBooks(s, SendClient(env, s, m).0)
  {
    hide SendClient, Times;
    SendIsWritten(env, s, m);
  }

  lemma SendServerBooksNothing(env: Env, s: State, m: Message)
    ensures SameBooks(s, SendServer(env, s, m).0)
  {
    hide Times, SessionFromClient;
  }

  lemma {:induction false} SendAllBooksNothing(env: Env, s: State, ms: seq<Message>)
    requires forall m | m in ms :: !Loggable(m.command)
    ensures SameBooks(s, SendAll(env, s, ms).0)
    decreases |ms|
  {
    hide SendClient, Times;
    if ms != [] {
      assert ms[0] in ms && forall m | m in ms[1..] :: m in ms;
      SendBooksNothing(env, s, ms[0]);
      SendAllBooksNothing(env, SendClient(env, s, ms[0]).0, ms[1..]);
    }
  }

  lemma {:induction false} SendNamesBooksNothing(
    env: Env, s: State, name: string, myNick: string, nicks: seq<string>)
    ensures SameBooks(s, SendNames(env, s, name, myNick, nicks).0)
    decreases |nicks|
  {
    hide SendClient, Times;
    if nicks != [] {
      var m := NamesMessage(s.serverPrefix, myNick, name, nicks[0]);
      SendBooksNothing(env, s, m);
      var t := SendClient(env, s, m).0;
      SendNamesBooksNothing(env, AddClientUser(t, name, nicks[0]), name, myNick, nicks[1..]);
    }
  }

  /** The JOIN that a rejoin begins with, if it can be written. */
  function Introduction(env: Env, s: State, name: string): multiset<Message>
  {
    if s.client.open && env.writes(s.attempts) then multiset{JoinMessage(s, name)} else multiset{}
  }

  /** Between `s` and `t` nothing was booked, and `extra` is all that was sent and would have
      to be. */
  ghost predicate Introduces(s: State, t: State, extra: multiset<Message>)
  {
    && t.ledger == s.ledger && t.logs == s.logs
    && forall m: Message | Loggable(m.command) :: Times(t.toClient, m) == Times(s.toClient, m) + extra[m]
  }

  lemma IntroducedThen(s: State, t: State, u: State, extra: multiset<Message>)
    requires Introduces(s, t, extra) && SameBooks(t, u)
    ensures Introduces(s, u, extra)
  {
    hide Times;
  }

  lemma SendJoinIntroduces(env: Env, s: State, name: string)
    ensures Introduces(s, SendJoin(env, s, name).0, Introduction(env, s, name))
  {
    hide SendClient, TopicMessage, JoinMessage, Times, Introduces;
    var m := JoinMessage(s, name);
    JoinIntroduces(env, s, name);
    var t := SendClient(env, TouchPreLog(s, name), m).0;
    assert !Loggable(TopicMessage(t, name).command) by { TopicIsNotLogged(t, name); }
    SendBooksNothing(env, t, TopicMessage(t, name));
    IntroducedThen(s, t, SendClient(env, t, TopicMessage(t, name)).0, Introduction(env, s, name));
  }

  lemma JoinIntroduces(env: Env, s: State, name: string)
    ensures Introduces(s, SendClient(env, TouchPreLog(s, name), JoinMessage(s, name)).0, Introduction(env, s, name))
  {
    hide SendClient, JoinMessage, Times;
    Sent(env, TouchPreLog(s, name), JoinMessage(s, name));
    SendIsWritten(env, TouchPreLog(s, name), JoinMessage(s, name));
  }

  lemma TopicIsNotLogged(s: State, name: string)
    ensures !Loggable(TopicMessage(s, name).command) && !Loggable(EndOfNamesMessage(s, name).command)
  {
  }

  lemma IntroduceIntroduces(env: Env, s: State, name: string, order: seq<string>)
    ensures Introduces(s, Introduce(env, s, name, order).0, Introduction(env, s, name))
  {
    hide SendClient, SendNames, SendJoin, EndOfNamesMessage, Introduces, SameBooks, Introduction, Times;
    var extra := Introduction(env, s, name);
    SendJoinIntroduces(env, s, name);
    var t, ok := SendJoin(env, s, name).0, SendJoin(env, s, name).1;
    if ok {
      var t' := TouchClient(t, name);
      ConnectionsBookNothing(t, t'.client, t.server);
      IntroducedThen(s, t, t', extra);
      SendNamesBooksNothing(env, t', name, t.server.session.id.nick, order);
      var (u, named) := SendNames(env, t', name, t.server.session.id.nick, order);
      IntroducedThen(s, t', u, extra);
      if named {
        var m := EndOfNamesMessage(u, name);
        TopicIsNotLogged(u, name);
        SendBooksNothing(env, u, m);
        IntroducedThen(s, u, SendClient(env, u, m).0, extra);
      }
    }
  }

  lemma WelcomeBackBooksNothing(env: Env, s: State)
    ensures SameBooks(s, WelcomeBack(env, s))
  {
    hide SendAll, SendServer, WelcomeMessages, Times;
    WelcomeIsNotLogged(s);
    SendAllBooksNothing(env, s, WelcomeMessages(s));
    var t := SendAll(env, s, WelcomeMessages(s)).0;
    var u := t.(client := t.client.(session := t.client.session.(id := t.server.session.id)));
    SendServerBooksNothing(env, u, Message("", Motd, []));
  }

  lemma WelcomeIsNotLogged(s: State)
    ensures forall m | m in WelcomeMessages(s) :: !Loggable(m.command)
  {
  }

  lemma SameBooksStayOk(s: State, t: State, base: Base)
    requires BooksOk(s, base) && SameBooks(s, t)
    ensures BooksOk(t, base)
  {
    hide Balanced, WellKept, Times;
  }

  // ---- Replays ------------------------------------------------------------------------

  lemma {:induction false} ReplayBalances(
    env: Env, s: State, name: string, ms: seq<Message>, i: nat, base: Base)
    requires i <= |ms| && ms == LogOf(s.logs, name)
    requires Balanced(s.ledger, s.logs, base, multiset(ms[..i]), multiset{})
    requires Delivered(s.ledger, s.toClient, base.introduced) && WellKept(s.logs)
    ensures BooksOk(ReplayFrom(env, s, name, ms, i), base)
    decreases |ms| - i
  {
    hide SendClient, Balanced, WellKept, LogOf, Times;
    if i == |ms| {
      assert ms[..i] == ms;
      ClearingBalances(s.ledger, s.logs, base, name);
    } else {
      SendIsWritten(env, s, ms[i]);
      ReplayedBalances(s.ledger, s.logs, base, ms, i);
      var (t, ok) := SendClient(env, s, ms[i]);
      if ok {
        var u := t.(ledger := t.ledger.(replayed := t.ledger.replayed + multiset{ms[i]}));
        ReplayBalances(env, u, name, ms, i + 1, base);
      }
    }
  }

  /** One more message of a replay sent, or the replay cut off. */
  lemma ReplayedBalances(l: Ledger, logs: Log, base: Base, ms: seq<Message>, i: nat)
    requires i < |ms| && Balanced(l, logs, base, multiset(ms[..i]), multiset{})
    ensures Balanced(l.(replayed := l.replayed + multiset{ms[i]}), logs, base,
                     multiset(ms[..i + 1]), multiset{})
    ensures Balanced(l.(cut := l.cut + multiset(ms[..i])), logs, base, multiset{}, multiset{})
  {
    hide Waiting;
    assert ms[..i + 1] == ms[..i] + [ms[i]];
  }

  lemma ClearingBalances(l: Ledger, logs: Log, base: Base, name: string)
    requires Balanced(l, logs, base, multiset(LogOf(logs, name)), multiset{}) && WellKept(logs)
    ensures Balanced(l, Cleared(logs, name), base, multiset{}, multiset{})
    ensures WellKept(Cleared(logs, name))
  {
    hide IsValid, Indexable, Waiting;
    forall m: Message | Loggable(m.command)
      ensures Waiting(logs, m) == Waiting(Cleared(logs, name), m) + multiset(LogOf(logs, name))[m]
    {
      ClearedCount(logs, name, m);
    }
  }

  lemma ClearedCount(logs: Log, name: string, m: Message)
    requires WellKept(logs)
    ensures Waiting(logs, m) == Waiting(Cleared(logs, name), m) + multiset(LogOf(logs, name))[m]
  {
    hide IsValid, Indexable;
    if m in LogOf(logs, name) {
      assert Loggably(name, m);
    }
  }

  lemma ReplayOfLogBalances(env: Env, s: State, name: string, base: Base)
    requires BooksOk(s, base)
    ensures BooksOk(Replay(env, s, name), base)
  {
    hide ReplayFrom;
    ReplayBalances(env, s, name, LogOf(s.logs, name), 0, base);
  }

  // ---- A logged or relayed message -------------------------------------------------------

  /** The books after `Track` has entered `m` as received, and before its fate is booked. */
  ghost predicate Owes(s: State, m: Message, base: Base)
  {
    && Balanced(s.ledger, s.logs, base, multiset{},
                if Loggable(m.command) then multiset{m} else multiset{})
    && Delivered(s.ledger, s.toClient, base.introduced)
    && WellKept(s.logs)
  }

  lemma TrackOwes(s: State, m: Message, base: Base)
    requires BooksOk(s, base)
    ensures Owes(Track(s, m), m, Arrival(base, m))
  {
    hide SessionFromServer;
  }

  lemma LogPays(s: State, m: Message, base: Base)
    requires Owes(s, m, base) && IsValid(m) && Indexable(m)
    ensures BooksOk(LogMessage(s, m), base)
  {
    if Loggable(m.command) {
      LogKeepsWellKept(s.logs, m);
      var logs' := Appended(s.logs, m.Param(0), m);
      forall k: Message
        ensures Waiting(logs', k) == Waiting(s.logs, k) + multiset{m}[k]
      {
      }
    }
  }

  lemma RelayPays(env: Env, s: State, m: Message, base: Base)
    requires Owes(s, m, base) && IsValid(m) && Indexable(m)
    ensures BooksOk(Relay(env, s, m), base)
  {
    hide SendClient, LogMessage, WellKept, Times;
    SendIsWritten(env, s, m);
    var (t, ok) := SendClient(env, s, m);
    if !ok { LogPays(t, m, base); }
  }

  // ---- The handlers -----------------------------------------------------------------------

  lemma HandleReplyPays(env: Env, s: State, m: Message, base: Base)
    requires Owes(s, m, base) && IsValid(m) && Indexable(m)
    ensures BooksOk(HandleReply(env, s, m), base)
  {
    hide SendClient, SendServer, Replay, Relay, LogMessage, Welcome, WellKept, Delivered, Times;
    if Loggable(m.command) {
      LogPays(s, m, base);
      RelayPays(env, s, m, base);
    } else {
      assert BooksOk(s, base);
      match m.command
      case RplWelcome => WelcomeBalances(env, s, m, base);
      case RplEndofmotd | ErrNomotd =>
        SendBalances(env, s, m, base);
        var t := SendClient(env, s, m).0;
        ReplayOfLogBalances(env, t, t.client.session.id.nick, base);
      case RplEndofnames =>
        SendBalances(env, s, m, base);
        ReplayOfLogBalances(env, SendClient(env, s, m).0, m.Param(1), base);
      case RplYourhost => SendBalances(env, s.(cache := s.cache.(yourhost := m.Param(1))), m, base);
      case RplCreated => SendBalances(env, s.(cache := s.cache.(created := m.Param(1))), m, base);
      case RplMyinfo =>
        SendBalances(env, s.(cache := s.cache.(myinfo := m.params[1..])), m, base);
      case Ping => SendServerBalances(env, s, m.(prefix := "", command := Pong), base);
      case Pong =>
      case Quit =>
        LogPays(s, m, base);
        RelayPays(env, s, m, base);
      case _ =>
        SendBalances(env, s, m, base);
        RelayPays(env, s, m, base);
    }
  }

  lemma SendBalances(env: Env, s: State, m: Message, base: Base)
    requires BooksOk(s, base) && !Loggable(m.command)
    ensures BooksOk(SendClient(env, s, m).0, base)
  {
    hide SendClient, BooksOk, SameBooks;
    SendBooksNothing(env, s, m);
    SameBooksStayOk(s, SendClient(env, s, m).0, base);
  }

  lemma SendServerBalances(env: Env, s: State, m: Message, base: Base)
    requires BooksOk(s, base)
    ensures BooksOk(SendServer(env, s, m).0, base)
  {
    hide SendServer, BooksOk, SameBooks;
    SendServerBooksNothing(env, s, m);
    SameBooksStayOk(s, SendServer(env, s, m).0, base);
  }

  lemma WelcomeBalances(env: Env, s: State, m: Message, base: Base)
    requires BooksOk(s, base) && m.command.RplWelcome?
    ensures BooksOk(Welcome(env, s, m), base)
  {
    hide SendClient, LastWord, BooksOk;
    var t := s.(serverPrefix := m.prefix);
    match ClientIds.Parse(LastWord(m.Param(1)))
    case None => SameBooksStayOk(s, Reset(t), base);
    case Some(id) =>
      var u := t.(server := t.server.(session := t.server.session.(id := id)));
      SendBooksNothing(env, u, m);
      SameBooksStayOk(s, Welcome(env, s, m), base);
  }

  /** The books after a message from the client: a rejoin, if it leads to one, begins with a
      JOIN of its own. */
  function Introduced(env: Env, s: State, m: Message, base: Base): Base
  {
    if IsValid(m) && m.command.Join? && s.client.session.flags.Done()
       && m.Param(0) in s.server.session.channels && m.Param(0) !in s.client.session.channels
    then base.(introduced := base.introduced + Introduction(env, s, m.Param(0))) else base
  }

  lemma HandleClientBalances(env: Env, s: State, m: Message, order: seq<string>, base: Base)
    requires BooksOk(s, base)
    ensures BooksOk(HandleClient(env, s, m, order), Introduced(env, s, m, base))
  {
    hide SendClient, HandleHandshake, HandleCommand, BooksOk, SameBooks, Introduction;
    match Validate(m)
    case Some(reply) =>
      SendBooksNothing(env, s, reply);
      var t := SendClient(env, s, reply).0;
      ClosingBooksNothing(t);
      SameBooksStayOk(s, t, base);
      SameBooksStayOk(t, DropClient(t), base);
    case None =>
      var t := s.(client := s.client.(session := SessionFromClient(s.client.session, m)));
      ConnectionsBookNothing(s, t.client, t.server);
      SameBooksStayOk(s, t, base);
      assert Introduced(env, t, m, base) == Introduced(env, s, m, base) by { SameIntroduction(env, s, m); }
      if t.client.session.flags.Done() {
        HandleCommandBalances(env, t, m, order, base);
      } else {
        HandshakeBooksNothing(env, t, m);
        SameBooksStayOk(t, HandleHandshake(env, t, m), base);
      }
  }

  lemma SameIntroduction(env: Env, s: State, m: Message)
    requires IsValid(m)
    ensures var t := s.(client := s.client.(session := SessionFromClient(s.client.session, m)));
            forall base :: Introduced(env, t, m, base) == Introduced(env, s, m, base)
  {
  }

  lemma HandshakeBooksNothing(env: Env, s: State, m: Message)
    ensures SameBooks(s, HandleHandshake(env, s, m))
  {
    hide SendServer, WelcomeBack, Times;
    SendServerBooksNothing(env, s, m);
    WelcomeBackBooksNothing(env, s);
  }

  lemma HandleCommandBalances(env: Env, s: State, m: Message, order: seq<string>, base: Base)
    requires BooksOk(s, base) && IsValid(m) && s.client.session.flags.Done()
    ensures BooksOk(HandleCommand(env, s, m, order), Introduced(env, s, m, base))
  {
    hide SendClient, SendServer, Rejoin, BooksOk, SameBooks, Introduction, DropClient, IsValid;
    match m.command
    case Ping => SendBalances(env, s, m.(prefix := "", command := Pong), base);
    case Pong =>
    case Quit =>
      ClosingBooksNothing(s);
      SameBooksStayOk(s, DropClient(s), base);
    case Join =>
      SendServerBalances(env, s, m, base);
      RejoinBalances(env, s, m.Param(0), order, base);
    case _ => SendServerBalances(env, s, m, base);
  }

  lemma RejoinBalances(env: Env, s: State, name: string, order: seq<string>, base: Base)
    requires BooksOk(s, base)
    ensures BooksOk(Rejoin(env, s, name, order), base.(introduced := base.introduced + Introduction(env, s, name)))
  {
    hide Introduce, Replay, Introduces, BooksOk;
    IntroduceIntroduces(env, s, name, order);
    var t := Introduce(env, s, name, order).0;
    var base' := base.(introduced := base.introduced + Introduction(env, s, name));
    IntroductionsStayOk(s, t, name, env, base);
    ReplayOfLogBalances(env, t, name, base');
  }

  lemma IntroductionsStayOk(s: State, t: State, name: string, env: Env, base: Base)
    requires BooksOk(s, base) && Introduces(s, t, Introduction(env, s, name))
    ensures BooksOk(t, base.(introduced := base.introduced + Introduction(env, s, name)))
  {
    hide WellKept, Times, Waiting;
  }

  // ---- The loop ------------------------------------------------------------------------------

  lemma CheckBooksNothing(env: Env, s: State, now: int)
    ensures SameBooks(s, CheckClient(env, s, now)) && SameBooks(s, CheckServer(env, s, now))
  {
    hide SendClient, SendServer, DropClient, Reset, Times;
    ClosingBooksNothing(s);
    SendBooksNothing(env, s, PING);
    SendServerBooksNothing(env, s, PING);
  }

  lemma TickBooksNothing(env: Env, s: State, clientNow: int, serverNow: int)
    ensures SameBooks(s, CheckServer(env, CheckClient(env, s, clientNow), serverNow))
  {
    hide CheckClient, CheckServer, SameBooks;
    var t := CheckClient(env, s, clientNow);
    CheckBooksNothing(env, s, clientNow);
    CheckBooksNothing(env, t, serverNow);
    Onward(s, t, CheckServer(env, t, serverNow));
  }

  lemma ConnectBooksNothing(env: Env, s: State, connected: bool, clientNow: int, serverNow: int)
    ensures SameBooks(s, Connect(env, s, connected, clientNow, serverNow))
  {
  }

  lemma HandleServerBalances(env: Env, s: State, m: Message, base: Base)
    requires BooksOk(s, base) && (IsValid(m) ==> Indexable(m))
    ensures BooksOk(HandleServer(env, s, m), if IsValid(m) then Arrival(base, m) else base)
  {
    hide HandleReply, BooksOk, Track, Owes, IsValid, Arrival;
    if IsValid(m) {
      TrackOwes(s, m, base);
      HandleReplyPays(env, Track(s, m), m, Arrival(base, m));
    } else {
      SameBooksStayOk(s, Reset(s), base);
    }
  }

  lemma ClosedBalances(s: State, client: Conn, server: Conn, base: Base)
    requires BooksOk(s, base)
    ensures var t := s.(client := client, server := server);
            BooksOk(t, base) && BooksOk(DropClient(t), base) && BooksOk(Reset(t), base)
  {
    hide BooksOk, SameBooks, DropClient, Reset;
    var t := s.(client := client, server := server);
    ConnectionsBookNothing(s, client, server);
    SameBooksStayOk(s, t, base);
    ClosingBooksNothing(t);
    SameBooksStayOk(t, DropClient(t), base);
    SameBooksStayOk(t, Reset(t), base);
  }

  lemma StepBalances(env: Env, s: State, e: Event, base: Base)
    requires BooksOk(s, base) && Enabled(s, e)
    ensures BooksOk(Step(env, s, e), EventArrival(env, s, base, e))
  {
    hide Arrival, Introduced, HandleServer, HandleClient, BooksOk, CheckClient, CheckServer, Connect, DropClient, Reset, SameBooks;
    match e
    case ClientMessage(m, order, now) =>
      ClosedBalances(s, Renewed(env, s.client, now), s.server, base);
      HandleClientBalances(env, s.(client := Renewed(env, s.client, now)), m, order, base);
      RenewedIntroduction(env, s, m, now, base);
    case ClientClosed(now) => ClosedBalances(s, Renewed(env, s.client, now), s.server, base);
    case ServerMessage(m, now) =>
      ClosedBalances(s, s.client, Renewed(env, s.server, now), base);
      HandleServerBalances(env, s.(server := Renewed(env, s.server, now)), m, base);
    case ServerClosed(now) => ClosedBalances(s, s.client, Renewed(env, s.server, now), base);
    case Tick(clientNow, serverNow) =>
      TickBooksNothing(env, s, clientNow, serverNow);
      SameBooksStayOk(s, Step(env, s, e), base);
    case NewClient(connected, clientNow, serverNow) =>
      ConnectBooksNothing(env, s, connected, clientNow, serverNow);
      SameBooksStayOk(s, Step(env, s, e), base);
    case Stop => ClosedBalances(s, s.client, s.server, base);
  }

  lemma RenewedIntroduction(env: Env, s: State, m: Message, now: int, base: Base)
    ensures Introduced(env, s.(client := Renewed(env, s.client, now)), m, base) == Introduced(env, s, m, base)
  {
  }

  function EventArrival(env: Env, s: State, base: Base, e: Event): Base
  {
    match e
    case ServerMessage(m, _) => if IsValid(m) then Arrival(base, m) else base
    case ClientMessage(m, _, _) => Introduced(env, s, m, base)
    case _ => base
  }

  /** The loggable messages that arrive with the first `i` events of a run, and the JOINs that
      its rejoins begin with. */
  function Arrivals(env: Env, states: seq<State>, events: seq<Event>, base: Base, i: nat): Base
    requires i <= |events| <= |states|
  {
    if i == 0 then base
    else EventArrival(env, states[i - 1], Arrivals(env, states, events, base, i - 1), events[i - 1])
  }

  lemma {:induction false} ArrivalsKeepStock(
    env: Env, states: seq<State>, events: seq<Event>, base: Base, i: nat)
    requires i <= |events| <= |states|
    ensures Arrivals(env, states, events, base, i).stock == base.stock
  {
    if i > 0 { ArrivalsKeepStock(env, states, events, base, i - 1); }
  }

  lemma {:induction false} RunsBalance(env: Env, states: seq<State>, events: seq<Event>, logs: Log, i: nat)
    requires IsRun(env, states, events) && states[0] == Initial(logs) && WellKept(logs)
    requires i <= |events|
    ensures BooksOk(states[i], Arrivals(env, states, events, Base(logs, multiset{}, multiset{}), i))
  {
    hide Step, EventArrival;
    if i > 0 {
      RunsBalance(env, states, events, logs, i - 1);
      StepBalances(env, states[i - 1], events[i - 1],
                   Arrivals(env, states, events, Base(logs, multiset{}, multiset{}), i - 1));
    }
  }

  /** Conservation over all runs. Of each message that belongs in a log, the copies that
      were stored at the start or arrived since, plus those that broken-off replays sent
      without clearing, are the copies relayed, replayed or still waiting; and these
      copies relayed and replayed are all that was written to clients, but for the JOINs
      that rejoins begin with. So none is lost, and where no replay broke off and no
      rejoin said the same, each was written, or waits, exactly once. A message counts as
      written when the write reports no failure. */
  lemma NothingIsLost(
    env: Env, states: seq<State>, events: seq<Event>, logs: Log, i: nat, m: Message)
    requires IsRun(env, states, events) && states[0] == Initial(logs) && WellKept(logs)
    requires i <= |events| && Loggable(m.command)
    ensures var l := states[i].ledger;
            var base := Arrivals(env, states, events, Base(logs, multiset{}, multiset{}), i);
            && base.arrived[m] + Waiting(logs, m) + l.cut[m] ==
               l.relayed[m] + l.replayed[m] + Waiting(states[i].logs, m)
            && Times(states[i].toClient, m) == l.relayed[m] + l.replayed[m] + base.introduced[m]
            && Times(states[i].toClient, m) + Waiting(states[i].logs, m) ==
               base.arrived[m] + Waiting(logs, m) + l.cut[m] + base.introduced[m]
            && l.cut[m] <= l.replayed[m]
            && (base.introduced[m] > 0 ==> m.command.Join?)
  {
    hide Step, Waiting, Arrivals, Times;
    RunsBalance(env, states, events, logs, i);
    var start := Base(logs, multiset{}, multiset{});
    var base := Arrivals(env, states, events, start, i);
    ArrivalsKeepStock(env, states, events, start, i);
    var l := states[i].ledger;
    assert l.received[m] == base.arrived[m];
    assert (l.cut + multiset{})[m] <= l.replayed[m];
    assert base.introduced[m] > 0 ==> m in base.introduced;
  }

  /** Whether a message that belongs in a log goes to the client at once: talk if the client
      is in the channel or meant by name, the rest if the client is registered; in both
      cases, if the write works out. */
  predicate GoesLive(env: Env, s: State, m: Message)
  {
    && s.client.open && env.writes(s.attempts)
    && if m.command.Privmsg? || m.command.Notice?
       then m.Param(0) in s.client.session.channels || IsMe(s.client.session, m.Param(0))
       else s.client.session.flags.Done()
  }

  /** A message from the server is relayed or logged, never both, and which is decided by
      `GoesLive`. */
  lemma RelayedOrLogged(env: Env, s: State, m: Message)
    requires IsValid(m) && Indexable(m) && Loggable(m.command)
    ensures var t, one := HandleServer(env, s, m), multiset{m};
            && t.ledger.relayed == s.ledger.relayed + (if GoesLive(env, s, m) then one else multiset{})
            && Waiting(t.logs, m) == Waiting(s.logs, m) + (if GoesLive(env, s, m) then 0 else 1)
            && t.toClient == s.toClient + (if GoesLive(env, s, m) then [m] else [])
            && LogOf(t.logs, m.Param(0)) ==
               LogOf(s.logs, m.Param(0)) + (if GoesLive(env, s, m) then [] else [m])
  {
    hide SessionFromServer, SendClient, Indexable, IsMe, Waiting, LogMessage, LogOf;
    Sent(env, Track(s, m), m);
    Logged(s, SendClient(env, Track(s, m), m).0, m);
    Logged(s, Track(s, m), m);
    assert s.ledger.relayed + multiset{} == s.ledger.relayed;
    assert s.toClient + [] == s.toClient;
  }

  lemma Logged(s: State, t: State, m: Message)
    requires t.logs == s.logs && Loggable(m.command)
    ensures LogMessage(t, m) == t.(logs := LogMessage(t, m).logs)
    ensures Waiting(LogMessage(t, m).logs, m) == Waiting(s.logs, m) + 1
    ensures LogOf(LogMessage(t, m).logs, m.Param(0)) == LogOf(s.logs, m.Param(0)) + [m]
    ensures LogOf(s.logs, m.Param(0)) + [] == LogOf(s.logs, m.Param(0))
  {
    LoggedOnce(s.logs, m);
  }

  lemma LoggedOnce(logs: Log, m: Message)
    ensures Waiting(Appended(logs, m.Param(0), m), m) == Waiting(logs, m) + 1
  {
  }
}

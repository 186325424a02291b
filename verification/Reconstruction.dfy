/** What the channel state kept from before the log is for: its users, followed by a replay
    of the log, are the users the server knows of. */
module Reconstruction {
  import opened Text
  import opened Messages
  import opened ClientIds
  import opened Views
  import opened Logs
  import opened Machine
  import opened Safety
  import opened Membership

  // ---- The invariant --------------------------------------------------------------------

  /** The server's side of one channel, held fixed while an event is handled. `unseen`: the
      server's session does not have the channel. */
  datatype Goal = Goal(name: string, users: set<string>, channels: ChannelViews, unseen: bool)

  function GoalOf(server: SessionView, name: string): Goal
  {
    Goal(name, UsersIn(server, name), server.channels, name !in server.channels)
  }

  ghost predicate NoRenames(log: seq<Message>)
  {
    forall m | m in log :: !m.command.Nick?
  }

  ghost predicate LogsOk(logs: Log, name: string)
  {
    WellKept(logs) && NoRenames(LogOf(logs, name))
  }

  predicate IsTalk(m: Message) { m.command.Privmsg? || m.command.Notice? }

  /** A replay would lead to the users of the goal, if the channel is held. */
  ghost predicate Reconstructs(preLog: SessionView, logs: Log, g: Goal)
  {
    && preLog.id == NOBODY
    && LogsOk(logs, g.name)
    && if g.unseen then g.users == {} else Replayed(UsersIn(preLog, g.name), LogOf(logs, g.name)) == g.users
  }

  /** A client that is in the channel is registered, and has nothing to catch up with. */
  ghost predicate CaughtUp(client: Conn, logs: Log, g: Goal)
  {
    g.name in client.session.channels ==>
      !g.unseen && client.session.flags.Done() && NoMoves(LogOf(logs, g.name))
  }

  /** The server connection is the one of the goal, or gone, and then no client is in the
      channel; a closed client is blank. */
  predicate Connected(client: Conn, server: Conn, g: Goal)
  {
    && (server.session.channels == g.channels
        || (server.session.channels == map[] && g.name !in client.session.channels))
    && (!client.open ==> client.session == NEW_SESSION)
  }

  ghost predicate Holds(s: State, g: Goal)
  {
    Reconstructs(s.preLog, s.logs, g) && CaughtUp(s.client, s.logs, g) && Connected(s.client, s.server, g)
  }

  /** At the top of the loop. */
  ghost predicate Synced(s: State, name: string)
  {
    Holds(s, GoalOf(s.server.session, name))
  }

  // ---- One message, one channel -----------------------------------------------------------

  predicate Neutral(m: Message, name: string)
  {
    !IsAbout(m, name) && !IsEverywhere(m)
  }

  lemma NeutralLeavesChannel(s: SessionView, m: Message, name: string)
    requires Neutral(m, name)
    ensures var t := SessionFromServer(s, m);
            && UsersIn(t, name) == UsersIn(s, name)
            && (name in t.channels <==> name in s.channels)
            && (s.flags.Done() ==> t.flags.Done())
  {
    OneChannel(s, m, name);
  }

  /** The session from before the log takes part in nothing itself, so it forgets nothing. */
  lemma KnownStep(preLog: SessionView, m: Message, name: string)
    requires preLog.id == NOBODY
    ensures var after := SessionFromServer(preLog, m);
            && after.id == NOBODY
            && UsersIn(after, name) ==
               if Neutral(m, name) || m.command == RplTopic then UsersIn(preLog, name)
               else UsersAfter(UsersIn(preLog, name), m)
  {
    assert !IsMe(preLog, m.prefix);
    OneChannel(preLog, m, name);
  }

  lemma ClosingHolds(s: State, g: Goal)
    requires Holds(s, g)
    ensures Holds(DropClient(s), g) && Holds(Reset(s), g)
  {
    hide Reconstructs, NoMoves;
  }

  lemma NeutralSendHolds(env: Env, s: State, m: Message, g: Goal)
    requires Holds(s, g) && Neutral(m, g.name)
    ensures Holds(SendClient(env, s, m).0, g)
  {
    hide Neutral, SendClient, SessionFromServer, LogsOk, NoMoves, Replayed, UsersIn;
    NeutralLeavesChannel(s.client.session, m, g.name);
    KnownStep(s.preLog, m, g.name);
    Sent(env, s, m);
  }

  lemma ServerSendHolds(env: Env, s: State, m: Message, g: Goal)
    requires Holds(s, g)
    ensures Holds(SendServer(env, s, m).0, g)
  {
    hide Reconstructs, CaughtUp, Reset;
    ClosingHolds(s.(attempts := s.attempts + 1), g);
  }

  lemma {:induction false} SendAllHolds(env: Env, s: State, ms: seq<Message>, g: Goal)
    requires Holds(s, g) && forall m | m in ms :: Neutral(m, g.name)
    ensures Holds(SendAll(env, s, ms).0, g)
    decreases |ms|
  {
    hide SendClient, Holds, Neutral;
    if ms != [] {
      assert ms[0] in ms && forall m | m in ms[1..] :: m in ms;
      NeutralSendHolds(env, s, ms[0], g);
      SendAllHolds(env, SendClient(env, s, ms[0]).0, ms[1..], g);
    }
  }

  // ---- Replays -----------------------------------------------------------------------------

  lemma LoggedMessages(logs: Log, name: string)
    requires LogsOk(logs, name)
    ensures AllMembership(LogOf(logs, name))
    ensures forall m | m in LogOf(logs, name) :: IsMembership(m) && m.Param(0) == name
  {
    forall m | m in LogOf(logs, name) ensures IsMembership(m) && m.Param(0) == name {
      assert Loggably(name, m) && !m.command.Nick?;
    }
  }

  /** Every log the proxy keeps is one that breaking off a replay of does no harm to, unless
      a nick and a channel go by the same name. */
  lemma WellKeptIsKept(logs: Log, name: string)
    requires WellKept(logs)
    requires NoRenames(LogOf(logs, name))
             || forall m | m in LogOf(logs, name) :: !(m.command.Join? || m.command.Part? || m.command.Kick?)
    ensures IsKept(LogOf(logs, name), name)
  {
    forall m | m in LogOf(logs, name) ensures Loggably(name, m) {
    }
  }

  lemma ClearingHolds(s: State, name: string, g: Goal)
    requires Holds(s, g) && (name != g.name || g.unseen || UsersIn(s.preLog, name) == g.users)
    ensures Holds(s.(logs := Cleared(s.logs, name)), g)
  {
    hide Loggably, UsersIn;
  }

  /** A replay in which the channel plays no part. */
  lemma {:induction false} NeutralReplayHolds(
    env: Env, s: State, name: string, ms: seq<Message>, i: nat, g: Goal)
    requires Holds(s, g) && (name != g.name || g.unseen) && i <= |ms|
    requires forall m | m in ms :: Neutral(m, g.name)
    ensures Holds(ReplayFrom(env, s, name, ms, i), g)
    decreases |ms| - i
  {
    hide SendClient, Neutral, Reconstructs;
    if i == |ms| {
      ClearingHolds(s, name, g);
    } else {
      assert ms[i] in ms;
      NeutralSendHolds(env, s, ms[i], g);
      var (t, ok) := SendClient(env, s, ms[i]);
      if ok {
        var u := t.(ledger := t.ledger.(replayed := t.ledger.replayed + multiset{ms[i]}));
        NeutralReplayHolds(env, u, name, ms, i + 1, g);
      }
    }
  }

  /** Between the first and the last message of a rejoin: the client may be in the channel
      with the log still ahead of it. */
  ghost predicate Rejoining(s: State, g: Goal)
  {
    && Reconstructs(s.preLog, s.logs, g) && !g.unseen && Connected(s.client, s.server, g)
    && (s.client.open ==> s.client.session.flags.Done() && s.server.session.channels == g.channels)
  }

  lemma BrokenOffHolds(s: State, g: Goal)
    requires Rejoining(s, g) && !s.client.open
    ensures Holds(s, g)
  {
    hide Reconstructs;
  }

  /** A replay of the channel's own log: the users known from before grow into those of the
      goal; where it breaks off, nothing is lost. */
  lemma {:induction false} OwnReplayHolds(
    env: Env, s: State, ms: seq<Message>, i: nat, g: Goal, users: set<string>)
    requires Rejoining(s, g) && ms == LogOf(s.logs, g.name) && i <= |ms|
    requires UsersIn(s.preLog, g.name) == Replayed(users, ms[..i]) && Replayed(users, ms) == g.users
    ensures Holds(ReplayFrom(env, s, g.name, ms, i), g)
    decreases |ms| - i
  {
    hide SendClient, LogsOk, Replayed, NoMoves, AllMembership, UsersIn, LogOf;
    if i == |ms| {
      assert ms[..i] == ms;
      ClearingOwn(s, g);
    } else {
      LoggedMessages(s.logs, g.name);
      OwnMessageSent(env, s, ms, i, g, users);
      var (t, ok) := SendClient(env, s, ms[i]);
      if ok {
        var u := t.(ledger := t.ledger.(replayed := t.ledger.replayed + multiset{ms[i]}));
        OwnReplayHolds(env, u, ms, i + 1, g, users);
      } else {
        BrokenOffHolds(t, g);
      }
    }
  }

  lemma ClearingOwn(s: State, g: Goal)
    requires Rejoining(s, g) && UsersIn(s.preLog, g.name) == g.users
    ensures Holds(s.(logs := Cleared(s.logs, g.name)), g)
  {
    hide Loggably, UsersIn;
  }

  lemma OwnMessageSent(env: Env, s: State, ms: seq<Message>, i: nat, g: Goal, users: set<string>)
    requires Rejoining(s, g) && ms == LogOf(s.logs, g.name) && i < |ms|
    requires UsersIn(s.preLog, g.name) == Replayed(users, ms[..i]) && Replayed(users, ms) == g.users
    ensures var (t, ok) := SendClient(env, s, ms[i]);
            && Rejoining(t, g) && t.logs == s.logs && (!ok ==> !t.client.open)
            && (ok ==> UsersIn(t.preLog, g.name) == Replayed(users, ms[..i + 1]))
  {
    hide SendClient, SessionFromServer, LogsOk, AllMembership, UsersIn, LogOf, Replayed, UsersAfter;
    var m := ms[i];
    LoggedMessages(s.logs, g.name);
    assert m in ms;
    Sent(env, s, m);
    KnownStep(s.preLog, m, g.name);
    ReplayedMore(users, ms, i);
    CutReplayIsHarmless(users, ms, i);
    CutReplayIsHarmless(users, ms, i + 1);
    DoneStays(s.client.session, m);
  }

  lemma ReplayedMore(users: set<string>, ms: seq<Message>, i: nat)
    requires i < |ms|
    ensures Replayed(users, ms[..i + 1]) == UsersAfter(Replayed(users, ms[..i]), ms[i])
    ensures IsTalk(ms[i]) ==> Replayed(users, ms[..i + 1]) == Replayed(users, ms[..i])
  {
    assert ms[..i + 1][..i] == ms[..i];
  }

  lemma ClosedReplayHolds(env: Env, s: State, name: string, g: Goal)
    requires Holds(s, g) && !s.client.open && (name != g.name || g.unseen)
    ensures Holds(Replay(env, s, name), g)
  {
    hide Reconstructs, NoMoves, Cleared;
    if LogOf(s.logs, name) == [] { ClearingHolds(s, name, g); }
  }

  /** A replay of a log goes well: the channel's own finds a registered client, and only talk
      while the channel is not held; no other renames anyone. */
  ghost predicate ReplaysWell(s: State, name: string, g: Goal)
  {
    if name != g.name then NoRenames(LogOf(s.logs, name))
    else
      && s.client.session.flags.Done() && s.server.session.channels == g.channels
      && (g.unseen ==> forall m | m in LogOf(s.logs, name) :: IsTalk(m))
  }

  lemma ReplayHolds(env: Env, s: State, name: string, g: Goal)
    requires Holds(s, g) && (s.client.open ==> ReplaysWell(s, name, g))
    ensures Holds(Replay(env, s, name), g)
  {
    hide ReplayFrom, NoMoves, WellKept, NoRenames;
    var ms := LogOf(s.logs, name);
    if name == g.name && !g.unseen {
      assert ms[..0] == [];
      OwnReplayHolds(env, s, ms, 0, g, UsersIn(s.preLog, name));
    } else if !s.client.open {
      ClosedReplayHolds(env, s, name, g);
    } else {
      LoggedMessages(s.logs, name);
      NeutralReplayHolds(env, s, name, ms, 0, g);
    }
  }

  // ---- Rejoining another channel ---------------------------------------------------------------

  lemma OtherTouchHolds(s: State, name: string, nick: string, g: Goal)
    requires Holds(s, g) && name != g.name && s.client.open
    ensures Holds(TouchPreLog(s, name), g) && Holds(TouchClient(s, name), g)
    ensures Holds(AddClientUser(s, name, nick), g)
  {
    hide LogsOk, NoMoves, Replayed;
  }

  lemma {:induction false} OtherNamesHold(
    env: Env, s: State, name: string, myNick: string, nicks: seq<string>, g: Goal)
    requires Holds(s, g) && name != g.name
    ensures Holds(SendNames(env, s, name, myNick, nicks).0, g)
    ensures SendNames(env, s, name, myNick, nicks).0.logs == s.logs
    decreases |nicks|
  {
    hide SendClient, Holds;
    if nicks != [] {
      var m := NamesMessage(s.serverPrefix, myNick, name, nicks[0]);
      NeutralSendHolds(env, s, m, g);
      Sent(env, s, m);
      var (t, ok) := SendClient(env, s, m);
      if ok {
        OtherTouchHolds(t, name, nicks[0], g);
        OtherNamesHold(env, AddClientUser(t, name, nicks[0]), name, myNick, nicks[1..], g);
      }
    }
  }

  lemma OtherJoinHolds(env: Env, s: State, name: string, g: Goal)
    requires Holds(s, g) && name != g.name && s.client.open
    ensures Holds(SendJoin(env, s, name).0, g)
    ensures SendJoin(env, s, name).1 ==> SendJoin(env, s, name).0.client.open
    ensures SendJoin(env, s, name).0.logs == s.logs
  {
    hide SendClient, Holds, SessionFromServer, Print;
    OtherTouchHolds(s, name, "", g);
    var s', m := TouchPreLog(s, name), JoinMessage(s, name);
    NeutralSendHolds(env, s', m, g);
    Sent(env, s', m);
    var t := SendClient(env, s', m).0;
    NeutralSendHolds(env, t, TopicMessage(t, name), g);
    Sent(env, t, TopicMessage(t, name));
  }

  lemma OtherRejoinHolds(env: Env, s: State, name: string, order: seq<string>, g: Goal)
    requires Holds(s, g) && name != g.name && s.client.open && NoRenames(LogOf(s.logs, name))
    ensures Holds(Rejoin(env, s, name, order), g)
  {
    hide SendClient, SendNames, SendJoin, Replay, Holds, NoRenames;
    OtherJoinHolds(env, s, name, g);
    var (t, ok) := SendJoin(env, s, name);
    if ok {
      OtherTouchHolds(t, name, "", g);
      OtherNamesHold(env, TouchClient(t, name), name, t.server.session.id.nick, order, g);
      var (u, named) := SendNames(env, TouchClient(t, name), name, t.server.session.id.nick, order);
      if named {
        NeutralSendHolds(env, u, EndOfNamesMessage(u, name), g);
        Sent(env, u, EndOfNamesMessage(u, name));
        ReplayHolds(env, SendClient(env, u, EndOfNamesMessage(u, name)).0, name, g);
      }
    }
  }

  // ---- Rejoining the channel itself ------------------------------------------------------------

  /** A nick that comes back from a NAMES reply as it went in. */
  predicate ReadsBack(nick: string) { NamesIn(nick) == {nick} }

  /** Our own nick, as the client's prefix gives it, is one the server lists. */
  predicate SelfIsListed(id: ClientId, users: set<string>)
  {
    match NickOf(Print(id)) case Some(nick) => nick in users case None => true
  }

  /** All that a rejoin lists is known from before the log, or the log decides on it: our own
      nick, as the client's prefix gives it, and what the nicks are read back as. */
  ghost predicate ListsFit(s: State, name: string)
  {
    var users, log := UsersIn(s.preLog, name), LogOf(s.logs, name);
    && Decided(users, log, Roster(s, name))
    && forall nick | nick in Roster(s, name) :: Decided(users, log, NamesIn(nick))
  }

  /** That is so if the server lists us, and every nick is read back as itself. */
  lemma WellFormedListsFit(s: State, name: string)
    requires Synced(s, name) && SelfIsListed(s.client.session.id, UsersIn(s.server.session, name))
    requires forall nick | nick in Roster(s, name) :: ReadsBack(nick)
    ensures ListsFit(s, name)
  {
    hide Verdict, Replayed, AllMembership, UsersIn, LogOf, NickOf, NamesIn, Print;
    var users, log := UsersIn(s.preLog, name), LogOf(s.logs, name);
    LoggedMessages(s.logs, name);
    forall nick | nick in Roster(s, name) ensures nick in users || Verdict(log, nick) != None {
      ReplayedByVerdict(users, log, nick);
    }
  }

  lemma RejoinMessageSent(env: Env, s: State, m: Message, g: Goal)
    requires Rejoining(s, g)
    requires Neutral(m, g.name) || m.command == RplTopic
             || (UsersIn(s.preLog, g.name) <= UsersAfter(UsersIn(s.preLog, g.name), m)
                 && Decided(UsersIn(s.preLog, g.name), LogOf(s.logs, g.name), UsersAfter(UsersIn(s.preLog, g.name), m)))
    ensures var (t, ok) := SendClient(env, s, m);
            Rejoining(t, g) && (!ok ==> !t.client.open) && (ok ==> t.client.open) && t.logs == s.logs
    ensures var (t, ok) := SendClient(env, s, m);
            ok ==> UsersIn(t.preLog, g.name) ==
                   if Neutral(m, g.name) || m.command == RplTopic then UsersIn(s.preLog, g.name)
                   else UsersAfter(UsersIn(s.preLog, g.name), m)
  {
    hide SendClient, SessionFromServer, LogsOk, UsersIn, UsersAfter, LogOf, Replayed, Neutral, AllMembership, Decided;
    Sent(env, s, m);
    KnownStep(s.preLog, m, g.name);
    DoneStays(s.client.session, m);
    LoggedMessages(s.logs, g.name);
    var users := UsersIn(s.preLog, g.name);
    if !Neutral(m, g.name) && m.command != RplTopic {
      ListedEarlyExactly(users, LogOf(s.logs, g.name), UsersAfter(users, m));
      assert users + UsersAfter(users, m) == UsersAfter(users, m);
    }
  }

  lemma OwnTouchKeeps(s: State, name: string, nick: string, g: Goal)
    requires Rejoining(s, g)
    ensures Rejoining(TouchPreLog(s, name), g)
    ensures s.client.open ==>
              Rejoining(TouchClient(s, name), g) && Rejoining(AddClientUser(s, name, nick), g)
  {
    hide LogsOk, Replayed;
  }

  lemma OwnJoinKeeps(env: Env, s: State, g: Goal)
    requires Rejoining(s, g) && s.client.open
    requires Decided(UsersIn(s.preLog, g.name), LogOf(s.logs, g.name), Roster(s, g.name))
    ensures var (t, ok) := SendJoin(env, s, g.name);
            Rejoining(t, g) && (ok <==> t.client.open) && t.logs == s.logs
    ensures SendJoin(env, s, g.name).1 ==>
              UsersIn(SendJoin(env, s, g.name).0.preLog, g.name) == Roster(s, g.name)
  {
    hide SendClient, Rejoining, SessionFromServer, NickOf, Decided;
    OwnTouchKeeps(s, g.name, "", g);
    var s', m := TouchPreLog(s, g.name), JoinMessage(s, g.name);
    RejoinMessageSent(env, s', m, g);
    var (t, ok) := SendClient(env, s', m);
    if ok { RejoinMessageSent(env, t, TopicMessage(t, g.name), g); }
  }

  lemma DecidedByMore(users: set<string>, more: set<string>, log: seq<Message>, others: set<string>)
    requires Decided(users, log, others) && users <= more
    ensures Decided(more, log, others)
  {
  }

  lemma {:induction false} OwnNamesKeep(env: Env, s: State, myNick: string, nicks: seq<string>, g: Goal)
    requires Rejoining(s, g) && s.client.open
    requires forall nick | nick in nicks ::
               Decided(UsersIn(s.preLog, g.name), LogOf(s.logs, g.name), NamesIn(nick))
    ensures var (t, ok) := SendNames(env, s, g.name, myNick, nicks);
            Rejoining(t, g) && (ok <==> t.client.open)
    decreases |nicks|
  {
    hide SendClient, Rejoining, UsersIn, NamesIn, Decided;
    if nicks != [] {
      var m := NamesMessage(s.serverPrefix, myNick, g.name, nicks[0]);
      var users, log := UsersIn(s.preLog, g.name), LogOf(s.logs, g.name);
      assert nicks[0] in nicks && forall nick | nick in nicks[1..] :: nick in nicks;
      assert m.Param(3) == nicks[0];
      assert Decided(users, log, users + NamesIn(nicks[0])) by { DecidedWithAll(users, log, NamesIn(nicks[0])); }
      RejoinMessageSent(env, s, m, g);
      var (t, ok) := SendClient(env, s, m);
      if ok {
        OwnTouchKeeps(t, g.name, nicks[0], g);
        AddedUserOnly(t, g.name, nicks[0]);
        var u := AddClientUser(t, g.name, nicks[0]);
        forall nick | nick in nicks[1..] ensures Decided(UsersIn(u.preLog, g.name), log, NamesIn(nick)) {
          DecidedByMore(users, UsersIn(u.preLog, g.name), log, NamesIn(nick));
        }
        OwnNamesKeep(env, u, myNick, nicks[1..], g);
      }
    }
  }

  lemma DecidedWithAll(users: set<string>, log: seq<Message>, others: set<string>)
    requires Decided(users, log, others)
    ensures Decided(users, log, users + others)
  {
  }

  lemma OwnRejoinHolds(env: Env, s: State, order: seq<string>, g: Goal)
    requires Rejoining(s, g) && s.client.open && ListsFit(s, g.name)
    requires Enumerates(order, Roster(s, g.name))
    ensures Holds(Rejoin(env, s, g.name, order), g)
  {
    hide SendClient, SendNames, SendJoin, ReplayFrom, Rejoining, Holds, UsersIn, Roster, NamesIn, Decided,
         EndOfNamesMessage;
    OwnJoinKeeps(env, s, g);
    var (t, ok) := SendJoin(env, s, g.name);
    if !ok {
      BrokenOffHolds(t, g);
    } else {
      OwnTouchKeeps(t, g.name, "", g);
      var t' := TouchClient(t, g.name);
      var users, log := UsersIn(s.preLog, g.name), LogOf(s.logs, g.name);
      assert users <= Roster(s, g.name) by { RosterHasAll(s, g.name); }
      forall nick | nick in order ensures Decided(UsersIn(t'.preLog, g.name), log, NamesIn(nick)) {
        DecidedByMore(users, UsersIn(t'.preLog, g.name), log, NamesIn(nick));
      }
      OwnNamesKeep(env, t', t.server.session.id.nick, order, g);
      var (u, named) := SendNames(env, t', g.name, t.server.session.id.nick, order);
      if !named {
        BrokenOffHolds(u, g);
      } else {
        var m := EndOfNamesMessage(u, g.name);
        assert Neutral(m, g.name) by { EndOfNamesIsNeutral(u, g.name); }
        RejoinMessageSent(env, u, m, g);
        var (v, ended) := SendClient(env, u, m);
        if ended { OwnReplayFromStart(env, v, g); } else { BrokenOffHolds(v, g); }
      }
    }
  }

  lemma RosterHasAll(s: State, name: string)
    ensures UsersIn(s.preLog, name) <= Roster(s, name)
  {
  }

  lemma EndOfNamesIsNeutral(s: State, name: string)
    ensures Neutral(EndOfNamesMessage(s, name), name)
  {
  }

  lemma OwnReplayFromStart(env: Env, s: State, g: Goal)
    requires Rejoining(s, g)
    ensures Holds(Replay(env, s, g.name), g)
  {
    hide ReplayFrom, LogsOk;
    assert LogOf(s.logs, g.name)[..0] == [];
    OwnReplayHolds(env, s, LogOf(s.logs, g.name), 0, g, UsersIn(s.preLog, g.name));
  }

  // ---- Events that do not concern the channel ----------------------------------------------------

  lemma FromClientHolds(s: State, m: Message, g: Goal)
    requires Holds(s, g) && s.client.open
    ensures Holds(s.(client := s.client.(session := SessionFromClient(s.client.session, m))), g)
  {
    hide Reconstructs, NoMoves;
  }

  lemma WelcomeBackHolds(env: Env, s: State, g: Goal)
    requires Holds(s, g) && s.client.open
    ensures Holds(WelcomeBack(env, s), g)
  {
    hide SendAll, SendServer, Reconstructs, NoMoves;
    WelcomeIsNeutral(s, g.name);
    SendAllHolds(env, s, WelcomeMessages(s), g);
    SendAllEndsOpen(env, s, WelcomeMessages(s));
    var (t, ok) := SendAll(env, s, WelcomeMessages(s));
    var u := t.(client := t.client.(session := t.client.session.(id := t.server.session.id)));
    if ok { ServerSendHolds(env, u, Message("", Motd, []), g); }
  }

  lemma WelcomeIsNeutral(s: State, name: string)
    ensures forall m | m in WelcomeMessages(s) :: Neutral(m, name)
  {
  }

  lemma {:induction false} SendAllEndsOpen(env: Env, s: State, ms: seq<Message>)
    requires s.client.open
    ensures SendAll(env, s, ms).1 ==> SendAll(env, s, ms).0.client.open
    decreases |ms|
  {
    hide SendClient, SessionFromServer;
    if ms != [] {
      Sent(env, s, ms[0]);
      var (t, ok) := SendClient(env, s, ms[0]);
      if ok { SendAllEndsOpen(env, t, ms[1..]); }
    }
  }

  /** When the client asks to rejoin the channel, what it will be shown fits the log; see
      `WellFormedListsFit`. The log of another channel that it rejoins renames nobody. */
  ghost predicate OrderlyRequest(s: State, m: Message, name: string)
  {
    IsValid(m) && m.command.Join?
    && m.Param(0) in s.server.session.channels && m.Param(0) !in s.client.session.channels ==>
      if m.Param(0) == name then ListsFit(s, name) else NoRenames(LogOf(s.logs, m.Param(0)))
  }

  lemma HandleCommandHolds(env: Env, s: State, m: Message, order: seq<string>, g: Goal)
    requires Holds(s, g) && s.client.open && s.client.session.flags.Done() && IsValid(m)
    requires g == GoalOf(s.server.session, g.name) && OrderlyRequest(s, m, g.name)
    requires m.command.Join? ==> Enumerates(order, Roster(s, m.Param(0)))
    ensures Holds(HandleCommand(env, s, m, order), g)
  {
    hide SendServer, SendClient, DropClient, Rejoin, Reconstructs, CaughtUp, Enumerates, Roster,
         ListsFit, IsValid, UsersIn, NoRenames;
    match m.command
    case Ping => NeutralSendHolds(env, s, m.(prefix := "", command := Pong), g);
    case Pong =>
    case Quit => ClosingHolds(s, g);
    case Join =>
      ServerSendHolds(env, s, m, g);
      var name := m.Param(0);
      if name !in s.client.session.channels && name in s.server.session.channels {
        if name == g.name {
          OwnRejoinHolds(env, s, order, g);
        } else {
          OtherRejoinHolds(env, s, name, order, g);
        }
      }
    case _ => ServerSendHolds(env, s, m, g);
  }

  lemma HandleClientHolds(env: Env, s: State, m: Message, order: seq<string>, g: Goal)
    requires Holds(s, g) && s.client.open
    requires g == GoalOf(s.server.session, g.name) && OrderlyRequest(s, m, g.name)
    requires m.command.Join? && IsValid(m) ==> Enumerates(order, Roster(s, m.Param(0)))
    ensures Holds(HandleClient(env, s, m, order), g)
  {
    hide SendClient, SendServer, DropClient, Reset, WelcomeBack, HandleCommand, Holds, Enumerates,
         ListsFit, UsersIn;
    match Validate(m)
    case Some(reply) =>
      NeutralSendHolds(env, s, reply, g);
      ClosingHolds(SendClient(env, s, reply).0, g);
    case None =>
      var t := s.(client := s.client.(session := SessionFromClient(s.client.session, m)));
      FromClientHolds(s, m, g);
      SameRequest(s, t, m, g.name);
      if t.client.session.flags.Done() {
        HandleCommandHolds(env, t, m, order, g);
      } else {
        ServerSendHolds(env, t, m, g);
        ClosingHolds(t, g);
        WelcomeBackHolds(env, t, g);
      }
  }

  lemma SameRequest(s: State, t: State, m: Message, name: string)
    requires t == s.(client := s.client.(session := SessionFromClient(s.client.session, m)))
    ensures OrderlyRequest(s, m, name) <==> OrderlyRequest(t, m, name)
    ensures Roster(s, m.Param(0)) == Roster(t, m.Param(0))
  {
    hide IsValid, Decided, NoRenames;
  }

  lemma LogNeutralHolds(s: State, m: Message, g: Goal)
    requires Holds(s, g) && Neutral(m, g.name) && IsValid(m) && Indexable(m)
    ensures Holds(LogMessage(s, m), g)
  {
    hide LogsOk, IsValid, Indexable, UsersIn, Replayed, NoMoves, LogOf, Appended, Neutral;
    if Loggable(m.command) {
      assert !m.command.Nick? by { assert Neutral(m, g.name); NeutralIsNoNick(m, g.name); }
      LogKeepsLogsOk(s.logs, m, g.name);
      TalkChangesNothing(s.logs, m, g.name, UsersIn(s.preLog, g.name));
    }
  }

  lemma NeutralIsNoNick(m: Message, name: string)
    requires Neutral(m, name)
    ensures !m.command.Nick?
  {
  }

  /** What logging a message that is not about the channel does to the channel's log. */
  lemma TalkChangesNothing(logs: Log, m: Message, name: string, users: set<string>)
    requires Loggable(m.command) && Neutral(m, name)
    ensures var log, log' := LogOf(logs, name), LogOf(Appended(logs, m.Param(0), m), name);
            && Replayed(users, log') == Replayed(users, log)
            && (NoMoves(log) ==> NoMoves(log'))
            && ((forall k | k in log :: IsTalk(k)) ==> forall k | k in log' :: IsTalk(k))
  {
    hide NickOf, NamesIn;
    var log := LogOf(logs, name);
    var log' := LogOf(Appended(logs, m.Param(0), m), name);
    if m.Param(0) == name {
      assert IsTalk(m) && log' == log + [m] && log'[..|log|] == log;
      assert Replayed(users, log') == UsersAfter(Replayed(users, log), m);
    } else {
      assert log' == log;
    }
  }

  lemma LogKeepsLogsOk(logs: Log, m: Message, name: string)
    requires LogsOk(logs, name) && Loggable(m.command) && IsValid(m) && Indexable(m)
    requires m.command.Nick? ==> m.Param(0) != name
    ensures LogsOk(Appended(logs, m.Param(0), m), name)
  {
    hide WellKept;
    LogKeepsWellKept(logs, m);
  }

  lemma RelayNeutralHolds(env: Env, s: State, m: Message, g: Goal)
    requires Holds(s, g) && Neutral(m, g.name) && IsValid(m) && Indexable(m)
    ensures Holds(Relay(env, s, m), g)
  {
    hide SendClient, LogMessage, Reconstructs, CaughtUp, IsValid;
    NeutralSendHolds(env, s, m, g);
    var (t, ok) := SendClient(env, s, m);
    if !ok { LogNeutralHolds(t, m, g); }
  }

  lemma WelcomeHolds(env: Env, s: State, m: Message, g: Goal)
    requires Holds(s, g) && m.command.RplWelcome?
    ensures Holds(Welcome(env, s, m), g)
  {
    hide SendClient, LastWord, Parse, Reset, Reconstructs, NoMoves;
    var t := s.(serverPrefix := m.prefix);
    match Parse(LastWord(m.Param(1)))
    case None => ClosingHolds(t, g);
    case Some(id) =>
      var u := t.(server := t.server.(session := t.server.session.(id := id)));
      NeutralSendHolds(env, u, m, g);
      Sent(env, u, m);
  }

  /** What ends with a replay: the names of channels are not nicks, the end of the channel's
      NAMES does not come while a client is registering, nor, while the channel is not
      held, to a log with more than talk in it, and no other log that is replayed renames
      anyone. */
  ghost predicate OrderlyEnd(s: State, m: Message, name: string)
  {
    var nick := s.client.session.id.nick;
    && (EndsMotd(m.command) ==> nick != name && (s.client.open ==> NoRenames(LogOf(s.logs, nick))))
    && (m.command.RplEndofnames? && s.client.open ==>
          if m.Param(1) != name then NoRenames(LogOf(s.logs, m.Param(1)))
          else
            && s.client.session.flags.Done()
            && (name in s.server.session.channels || forall k | k in LogOf(s.logs, name) :: IsTalk(k)))
  }

  lemma SendThenReplayHolds(env: Env, s: State, m: Message, name: string, g: Goal)
    requires Holds(s, g) && Neutral(m, g.name) && (s.client.open ==> ReplaysWell(s, name, g))
    ensures Holds(Replay(env, SendClient(env, s, m).0, name), g)
  {
    hide SendClient, SessionFromServer, Replay, Reconstructs, CaughtUp, Neutral, NoRenames;
    NeutralSendHolds(env, s, m, g);
    Sent(env, s, m);
    DoneStays(s.client.session, m);
    ReplayHolds(env, SendClient(env, s, m).0, name, g);
  }

  lemma HandleNeutralHolds(env: Env, s: State, m: Message, g: Goal)
    requires Holds(s, g) && Neutral(m, g.name) && IsValid(m) && Indexable(m) && OrderlyEnd(s, m, g.name)
    requires g == GoalOf(s.server.session, g.name)
    ensures Holds(HandleReply(env, s, m), g)
  {
    hide SendClient, SendServer, Replay, Relay, LogMessage, Welcome, Reconstructs, CaughtUp, NoRenames;
    match m.command
    case Ping => ServerSendHolds(env, s, m.(prefix := "", command := Pong), g);
    case Pong =>
    case RplWelcome => WelcomeHolds(env, s, m, g);
    case RplYourhost => NeutralSendHolds(env, s.(cache := s.cache.(yourhost := m.Param(1))), m, g);
    case RplCreated => NeutralSendHolds(env, s.(cache := s.cache.(created := m.Param(1))), m, g);
    case RplMyinfo => NeutralSendHolds(env, s.(cache := s.cache.(myinfo := m.params[1..])), m, g);
    case RplEndofmotd | ErrNomotd => MotdEndHolds(env, s, m, g);
    case RplEndofnames => SendThenReplayHolds(env, s, m, m.Param(1), g);
    case Privmsg | Notice | Join | Kick | Part =>
      LogNeutralHolds(s, m, g);
      RelayNeutralHolds(env, s, m, g);
    case RplMotdstart | RplMotd | RplNamereply | RplTopic
       | ErrNonicknamegiven | ErrErroneusnickname | ErrNicknameinuse | ErrNickcollision =>
      NeutralSendHolds(env, s, m, g);
    case _ => RelayNeutralHolds(env, s, m, g);
  }

  lemma MotdEndHolds(env: Env, s: State, m: Message, g: Goal)
    requires Holds(s, g) && EndsMotd(m.command) && OrderlyEnd(s, m, g.name)
    ensures var t := SendClient(env, s, m).0;
            Holds(Replay(env, t, t.client.session.id.nick), g)
  {
    hide SendClient, Replay, Reconstructs, CaughtUp, NoRenames;
    NeutralSendHolds(env, s, m, g);
    Sent(env, s, m);
    var t := SendClient(env, s, m).0;
    ReplayHolds(env, t, t.client.session.id.nick, g);
  }

  // ---- Messages that do concern the channel -------------------------------------------------------

  /** A client is there and gets the message. */
  predicate Told(env: Env, s: State) { s.client.open && env.writes(s.attempts) }

  /** How traffic about the channel has to arrive. What a client is told before the log must
      not be contradicted by the log, and what is not kept for it must not change the
      users; both are nothing to ask once the client is in the channel, as its log then
      moves nobody. What shows the channel to a client must find its log so. Joins and
      departures are kept, so they may come at any time. When a channel comes up, the
      first time or again, what is left of it from before must not matter; when we leave,
      a client that is told must know that it is we. */
  ghost predicate OrderlyTraffic(env: Env, s: State, m: Message, name: string)
  {
    var seen := name in s.server.session.channels;
    var users, log := UsersIn(s.preLog, name), LogOf(s.logs, name);
    var registered := Told(env, s) && s.client.session.flags.Done();
    var comesUp := seen || Superseded(Replayed(users, log), m);
    match m.command
    case Nick | Quit =>
      && (!registered && m.command.Nick? ==> m.Param(0) != name)
      && (seen ==> if registered then Fits(users, log, m) else Idle(UsersIn(s.server.session, name), m))
    case Join | Part | Kick =>
      m.Param(0) == name ==>
        if Leaves(s.server.session, m, name) then registered ==> Leaves(s.client.session, m, name)
        else comesUp && (registered ==> NoMoves(log))
    case RplNamereply =>
      m.Param(2) == name ==>
        if Told(env, s) then registered && comesUp && NoMoves(log)
        else seen && Idle(UsersIn(s.server.session, name), m)
    case RplTopic =>
      m.Param(1) == name ==> comesUp && (Told(env, s) ==> registered && NoMoves(log))
    case _ => true
  }

  /** The server's own view of the channel after the message. */
  lemma TrackedGoal(s: State, m: Message, name: string)
    requires !Leaves(s.server.session, m, name)
    ensures var g, g' := GoalOf(s.server.session, name), GoalOf(Track(s, m).server.session, name);
            && (g'.unseen <==> g.unseen && !IsAbout(m, name))
            && g'.users == (if Neutral(m, name) || m.command == RplTopic then g.users
                            else UsersAfter(g.users, m))
            && g'.channels == Track(s, m).server.session.channels
  {
    hide Loggable, IsMe;
    OneChannel(s.server.session, m, name);
    if Neutral(m, name) { NeutralLeavesChannel(s.server.session, m, name); }
  }

  lemma TrackNeutralHolds(s: State, m: Message, name: string)
    requires Synced(s, name) && Neutral(m, name)
    ensures Holds(Track(s, m), GoalOf(Track(s, m).server.session, name))
  {
    hide LogsOk, NoMoves, Replayed, SessionFromServer, UsersIn;
    TrackedGoal(s, m, name);
  }

  /** Nothing to catch up with: the log cannot tell the users now from those before it. */
  lemma NothingToReplay(s: State, g: Goal)
    requires Holds(s, g) && g.name in s.client.session.channels
    ensures NoMoves(LogOf(s.logs, g.name)) && UsersIn(s.preLog, g.name) == g.users
    ensures forall users :: Replayed(users, LogOf(s.logs, g.name)) == users
  {
    hide UsersIn, LogsOk, Replayed;
    LoggedMessages(s.logs, g.name);
    forall users ensures Replayed(users, LogOf(s.logs, g.name)) == users {
      NoMovesNoChange(users, LogOf(s.logs, g.name));
    }
  }

  lemma ReadyIfShown(s: State, name: string)
    requires Synced(s, name)
    ensures name in s.client.session.channels ==> NoMoves(LogOf(s.logs, name))
    ensures AllMembership(LogOf(s.logs, name))
    ensures name !in s.server.session.channels ==> UsersIn(s.server.session, name) == {}
  {
    hide UsersIn, LogsOk, Replayed;
    LoggedMessages(s.logs, name);
  }

  /** Traffic that reaches the client. */
  lemma DeliveredHolds(env: Env, s: State, m: Message, name: string)
    requires Synced(s, name) && !Leaves(s.server.session, m, name) && !Neutral(m, name)
    requires SendClient(env, Track(s, m), m).1
    requires name in s.server.session.channels ==> Fits(UsersIn(s.preLog, name), LogOf(s.logs, name), m)
    requires IsAbout(m, name) ==> s.client.session.flags.Done() && NoMoves(LogOf(s.logs, name))
    requires IsAbout(m, name) && name !in s.server.session.channels ==>
               Superseded(Replayed(UsersIn(s.preLog, name), LogOf(s.logs, name)), m)
    ensures var t := Track(s, m);
            Holds(SendClient(env, t, m).0, GoalOf(t.server.session, name))
    ensures SendClient(env, Track(s, m), m).0.server == Track(s, m).server
  {
    hide SendClient, SessionFromServer, LogsOk, NoMoves, Replayed, UsersIn, NickOf, LogOf, Fits, AllMembership,
         Superseded, UsersAfter, Track;
    TrackKeepsRest(s, m);
    ReadyIfShown(s, name);
    TrackedGoal(s, m, name);
    Sent(env, Track(s, m), m);
    KnownStep(s.preLog, m, name);
    DoneStays(s.client.session, m);
    OneChannel(s.client.session, m, name);
    var users, log := UsersIn(s.preLog, name), LogOf(s.logs, name);
    OvertakingExactly(users, log, m);
    TopicIsIdle(users, m);
    if !IsAbout(m, name) && name !in s.server.session.channels { NotHeld(Track(s, m).server.session, name); }
    if IsAbout(m, name) {
      NoMovesNoChange(users, log);
      NoMovesNoChange(UsersAfter(users, m), log);
      SupersededExactly(users, m);
      TopicIsIdle({}, m);
    }
  }

  lemma TopicIsIdle(users: set<string>, m: Message)
    ensures m.command.RplTopic? ==> UsersAfter(users, m) == users
  {
  }

  /** Traffic that changes nothing and reaches nobody, `t` being what is left of the client
      and the logs. */
  lemma UntoldHolds(s: State, t: State, m: Message, name: string)
    requires Synced(s, name) && !Leaves(s.server.session, m, name) && !Neutral(m, name)
    requires m.command.RplTopic? || (Idle(UsersIn(s.server.session, name), m) && !m.command.Join?)
    requires IsAbout(m, name) && name !in s.server.session.channels ==>
               m.command.RplTopic? && Superseded(Replayed(UsersIn(s.preLog, name), LogOf(s.logs, name)), m)
    requires t.preLog == s.preLog && (t.server == Track(s, m).server || t.server == CLOSED)
    requires t.client == CLOSED || (t.client == s.client && !s.client.session.flags.Done())
    requires LogOf(t.logs, name) == LogOf(s.logs, name) && LogsOk(t.logs, name)
    ensures Holds(t, GoalOf(Track(s, m).server.session, name))
  {
    hide SessionFromServer, LogsOk, Replayed, UsersIn, LogOf, Idle, UsersAfter, Superseded;
    TrackedGoal(s, m, name);
    RegisteredIfShown(s, name);
    ReadyIfShown(s, name);
    IdleExactly(UsersIn(s.server.session, name), m);
    var left := Replayed(UsersIn(s.preLog, name), LogOf(s.logs, name));
    if m.command.RplTopic? {
      SupersededExactly(left, m);
      TopicIsIdle(left, m);
      TopicIsIdle({}, m);
    }
  }

  /** A join or departure that has to be logged, `t` being what is left of the client. */
  lemma LoggedHolds(s: State, t: State, m: Message, name: string)
    requires Synced(s, name) && IsAbout(m, name) && (m.command.Join? || m.command.Part? || m.command.Kick?)
    requires IsValid(m) && Indexable(m) && !Leaves(s.server.session, m, name)
    requires name in s.server.session.channels
             || Superseded(Replayed(UsersIn(s.preLog, name), LogOf(s.logs, name)), m)
    requires t.preLog == s.preLog && t.logs == s.logs
    requires t.server == Track(s, m).server || t.server == CLOSED
    requires t.client == s.client || t.client == CLOSED
    requires name !in t.client.session.channels
    ensures Holds(LogMessage(t, m), GoalOf(Track(s, m).server.session, name))
  {
    hide Loggably, IsValid, UsersIn, SessionFromServer, LogsOk, UsersAfter, NoMoves, IsMe, Leaves, Indexable, Track,
         Superseded;
    assert Track(s, m).client == s.client by { TrackKeepsRest(s, m); }
    TrackedGoal(s, m, name);
    ReadyIfShown(s, name);
    SupersededExactly(Replayed(UsersIn(s.preLog, name), LogOf(s.logs, name)), m);
    LogKeepsLogsOk(s.logs, m, name);
    var log := LogOf(s.logs, name);
    assert (log + [m])[..|log|] == log;
  }

  /** Traffic about the channel, whatever becomes of it. */
  lemma TrafficHolds(env: Env, s: State, m: Message, name: string)
    requires Synced(s, name) && !Neutral(m, name) && OrderlyTraffic(env, s, m, name)
    requires IsValid(m) && Indexable(m) && s.server.open
    ensures var t, g := HandleReply(env, Track(s, m), m), GoalOf(Track(s, m).server.session, name);
            Holds(t, g)
  {
    hide SendClient, SessionFromServer, Holds, IsValid, UsersIn, IsMe, Indexable, Fits, Idle, NoMoves;
    SentEither(env, s, m);
    RegisteredIfShown(s, name);
    ReadyIfShown(s, name);
    match m.command
    case Nick | Quit => EverywhereHolds(env, s, m, name);
    case Join | Part | Kick => MoveHolds(env, s, m, name);
    case RplNamereply => ReplyHolds(env, s, m, name);
    case RplTopic => ReplyHolds(env, s, m, name);
  }

  lemma IdleOnNobody(m: Message)
    requires IsEverywhere(m)
    ensures Idle({}, m)
  {
  }

  lemma EverywhereHolds(env: Env, s: State, m: Message, name: string)
    requires Synced(s, name) && IsEverywhere(m) && OrderlyTraffic(env, s, m, name)
    requires IsValid(m) && Indexable(m) && s.server.open
    ensures var t, g := HandleReply(env, Track(s, m), m), GoalOf(Track(s, m).server.session, name);
            Holds(t, g)
  {
    hide SendClient, SessionFromServer, Reconstructs, CaughtUp, Connected, IsValid, UsersIn, IsMe, Indexable,
         Fits, Idle, NoMoves, LogsOk, Track;
    var s' := Track(s, m);
    assert s'.client == s.client && s'.logs == s.logs && s'.preLog == s.preLog by { TrackKeepsRest(s, m); }
    SentEither(env, s, m);
    RegisteredIfShown(s, name);
    ReadyIfShown(s, name);
    UnseenAfter(s, m, name);
    IdleOnNobody(m);
    var (t, ok) := SendClient(env, s', m);
    Sent(env, s', m);
    if s.client.session.flags.Done() && ok {
      DeliveredHolds(env, s, m, name);
    } else {
      var u := LogMessage(if s.client.session.flags.Done() then t else s', m);
      LogEverywhere(s, u.logs, m, name);
      UntoldHolds(s, u, m, name);
    }
  }

  lemma TrackKeepsRest(s: State, m: Message)
    ensures var t := Track(s, m); t.client == s.client && t.logs == s.logs && t.preLog == s.preLog
  {
  }

  lemma UnseenAfter(s: State, m: Message, name: string)
    requires IsEverywhere(m)
    ensures name in Track(s, m).server.session.channels <==> name in s.server.session.channels
    ensures !Leaves(s.server.session, m, name)
  {
    OneChannel(s.server.session, m, name);
  }

  /** A rename is logged, under the new nick, a QUIT is not. */
  lemma LogEverywhere(s: State, logs: Log, m: Message, name: string)
    requires Synced(s, name) && IsEverywhere(m) && IsValid(m) && Indexable(m)
    requires logs == if m.command.Nick? then Appended(s.logs, m.Param(0), m) else s.logs
    requires m.command.Nick? ==> m.Param(0) != name
    ensures LogOf(logs, name) == LogOf(s.logs, name) && LogsOk(logs, name)
  {
    hide WellKept, NoRenames, NoMoves, IsValid, Replayed, UsersIn;
    if m.command.Nick? { LogKeepsLogsOk(s.logs, m, name); }
  }

  lemma MoveHolds(env: Env, s: State, m: Message, name: string)
    requires Synced(s, name) && IsAbout(m, name) && (m.command.Join? || m.command.Part? || m.command.Kick?)
    requires OrderlyTraffic(env, s, m, name) && IsValid(m) && Indexable(m) && s.server.open
    ensures var t, g := HandleReply(env, Track(s, m), m), GoalOf(Track(s, m).server.session, name);
            Holds(t, g)
  {
    hide SendClient, SessionFromServer, Reconstructs, CaughtUp, Connected, IsValid, UsersIn, IsMe, Indexable,
         Fits, NoMoves, LogsOk, Track, LogMessage;
    var s' := Track(s, m);
    assert s'.client == s.client && s'.logs == s.logs && s'.preLog == s.preLog by { TrackKeepsRest(s, m); }
    SentEither(env, s, m);
    RegisteredIfShown(s, name);
    ReadyIfShown(s, name);
    var (t, ok) := SendClient(env, s', m);
    Sent(env, s', m);
    if Leaves(s.server.session, m, name) {
      OwnDepartureHolds(env, s, m, name);
    } else if !s.client.session.flags.Done() {
      LoggedHolds(s, s', m, name);
    } else if ok {
      NothingContradicts(UsersIn(s.preLog, name), LogOf(s.logs, name), m);
      DeliveredHolds(env, s, m, name);
    } else {
      LoggedHolds(s, t, m, name);
    }
  }

  /** We leave, and nothing is asked of the users until we come again. */
  lemma OwnDepartureHolds(env: Env, s: State, m: Message, name: string)
    requires Synced(s, name) && Leaves(s.server.session, m, name) && IsValid(m) && Indexable(m)
    requires Told(env, s) && s.client.session.flags.Done() ==> Leaves(s.client.session, m, name)
    ensures Holds(HandleReply(env, Track(s, m), m), GoalOf(Track(s, m).server.session, name))
  {
    hide SendClient, SessionFromServer, IsValid, UsersIn, Indexable, NoMoves, LogsOk, Replayed, Departs, Loggably;
    var s' := Track(s, m);
    OneChannel(s.server.session, m, name);
    OneChannel(s.client.session, m, name);
    Sent(env, s', m);
    KnownStep(s.preLog, m, name);
    DepartureIsMove(s.server.session, m, name);
    LogKeepsLogsOk(s.logs, m, name);
    assert UsersIn(s'.server.session, name) == {} by { NotHeld(s'.server.session, name); }
    RegisteredIfShown(s, name);
  }

  lemma DepartureIsMove(s: SessionView, m: Message, name: string)
    requires Leaves(s, m, name)
    ensures m.command.Part? || m.command.Kick?
  {
  }

  lemma NotHeld(s: SessionView, name: string)
    requires name !in s.channels
    ensures UsersIn(s, name) == {}
  {
  }

  lemma ReplyHolds(env: Env, s: State, m: Message, name: string)
    requires Synced(s, name) && IsAbout(m, name) && (m.command.RplNamereply? || m.command.RplTopic?)
    requires OrderlyTraffic(env, s, m, name) && IsValid(m) && Indexable(m) && s.server.open
    ensures var t, g := HandleReply(env, Track(s, m), m), GoalOf(Track(s, m).server.session, name);
            Holds(t, g)
  {
    hide SendClient, SessionFromServer, Reconstructs, CaughtUp, Connected, IsValid, UsersIn, IsMe, Indexable,
         Fits, Idle, NoMoves, Track;
    var s' := Track(s, m);
    assert s'.client == s.client && s'.logs == s.logs && s'.preLog == s.preLog by { TrackKeepsRest(s, m); }
    SentEither(env, s, m);
    RegisteredIfShown(s, name);
    ReadyIfShown(s, name);
    var (t, ok) := SendClient(env, s', m);
    Sent(env, s', m);
    if ok {
      NothingContradicts(UsersIn(s.preLog, name), LogOf(s.logs, name), m);
      DeliveredHolds(env, s, m, name);
    } else {
      assert LogsOk(t.logs, name) by { SyncedLogs(s, name); }
      UntoldHolds(s, t, m, name);
    }
  }

  lemma SyncedLogs(s: State, name: string)
    requires Synced(s, name)
    ensures LogsOk(s.logs, name)
  {
    hide LogsOk;
  }

  lemma RegisteredIfShown(s: State, name: string)
    requires Synced(s, name)
    ensures name in s.client.session.channels ==>
              s.client.open && s.client.session.flags.Done() && name in s.server.session.channels
    ensures !s.client.open ==> s.client.session == NEW_SESSION
  {
    hide Reconstructs, NoMoves;
  }

  /** `Sent` for a message that has just been tracked. */
  lemma SentEither(env: Env, s: State, m: Message)
    ensures var (t, ok) := SendClient(env, Track(s, m), m);
            && (ok <==> s.client.open && env.writes(s.attempts))
            && (s.server.session.flags.Done() ==> t.server == Track(s, m).server)
            && t.logs == s.logs
            && (!ok ==> t.preLog == s.preLog && t.client == Shutdown(s.client))
            && (ok ==> t.server == Track(s, m).server)
  {
    hide ChannelsAfter;
    assert s.server.session.flags.Done() ==> Track(s, m).server.session.flags.Done() by {
      DoneStays(s.server.session, m);
    }
  }

  // ---- The loop -----------------------------------------------------------------------------------

  ghost predicate Orderly(env: Env, s: State, e: Event, name: string)
  {
    match e
    case ClientMessage(m, _, _) => OrderlyRequest(s, m, name)
    case ServerMessage(m, _) =>
      IsValid(m) ==> if Neutral(m, name) then OrderlyEnd(s, m, name) else OrderlyTraffic(env, s, m, name)
    case _ => true
  }

  lemma HoldsThenSynced(t: State, server: SessionView, name: string)
    requires Holds(t, GoalOf(server, name))
    ensures Synced(t, name)
  {
    hide LogsOk, NoMoves, Replayed;
  }

  lemma ServerEventSyncs(env: Env, s: State, m: Message, name: string)
    requires Synced(s, name) && s.server.open
    requires IsValid(m) ==> Indexable(m)
    requires IsValid(m) ==> if Neutral(m, name) then OrderlyEnd(s, m, name) else OrderlyTraffic(env, s, m, name)
    ensures Synced(HandleServer(env, s, m), name)
  {
    hide HandleReply, Reset, Track, Holds, IsValid, OrderlyTraffic, OrderlyEnd, Neutral;
    var t, s' := HandleServer(env, s, m), Track(s, m);
    if !IsValid(m) {
      ClosingHolds(s, GoalOf(s.server.session, name));
      HoldsThenSynced(t, s.server.session, name);
    } else if Neutral(m, name) {
      TrackNeutralHolds(s, m, name);
      assert OrderlyEnd(s', m, name) by { TrackedEnd(s, m, name); }
      HandleNeutralHolds(env, s', m, GoalOf(s'.server.session, name));
      HoldsThenSynced(t, s'.server.session, name);
    } else {
      TrafficHolds(env, s, m, name);
      HoldsThenSynced(t, s'.server.session, name);
    }
  }

  lemma TrackedEnd(s: State, m: Message, name: string)
    requires Neutral(m, name)
    ensures OrderlyEnd(Track(s, m), m, name) <==> OrderlyEnd(s, m, name)
  {
    hide NoRenames, Neutral, SessionFromServer;
    NeutralLeavesChannel(s.server.session, m, name);
  }

  lemma TickHolds(env: Env, s: State, clientNow: int, serverNow: int, g: Goal)
    requires Holds(s, g)
    ensures Holds(CheckServer(env, CheckClient(env, s, clientNow), serverNow), g)
  {
    hide SendClient, SendServer, DropClient, Reset, Reconstructs, NoMoves;
    ClosingHolds(s, g);
    NeutralSendHolds(env, s, PING, g);
    var t := CheckClient(env, s, clientNow);
    ClosingHolds(t, g);
    ServerSendHolds(env, t, PING, g);
  }

  lemma ConnectHolds(env: Env, s: State, connected: bool, clientNow: int, serverNow: int, g: Goal)
    requires Holds(s, g)
    ensures Holds(Connect(env, s, connected, clientNow, serverNow), g)
  {
    hide DropClient, Reconstructs, NoMoves;
    ClosingHolds(s, g);
    var t := DropClient(s);
    var u := t.(client := Setup(env, t.client, clientNow));
    ClosingHolds(u, g);
  }

  lemma RenewedHolds(env: Env, s: State, now: int, g: Goal)
    requires Holds(s, g)
    ensures s.client.open ==> Holds(s.(client := Renewed(env, s.client, now)), g)
    ensures Holds(s.(server := Renewed(env, s.server, now)), g)
  {
    hide Reconstructs, NoMoves;
  }

  lemma StepSyncs(env: Env, s: State, e: Event, name: string)
    requires Synced(s, name) && Enabled(s, e) && Orderly(env, s, e, name)
    ensures Synced(Step(env, s, e), name)
  {
    hide HandleClient, HandleServer, CheckClient, CheckServer, Connect, DropClient, Reset, Holds,
         OrderlyRequest, OrderlyTraffic, OrderlyEnd, Enumerates;
    var g, t := GoalOf(s.server.session, name), Step(env, s, e);
    match e
    case ClientMessage(m, order, now) =>
      RenewedHolds(env, s, now, g);
      var s' := s.(client := Renewed(env, s.client, now));
      assert OrderlyRequest(s', m, name) by { RenewedRequest(env, s, m, name, now); }
      assert Roster(s', m.Param(0)) == Roster(s, m.Param(0));
      HandleClientHolds(env, s', m, order, g);
      HoldsThenSynced(t, s.server.session, name);
    case ServerMessage(m, now) =>
      RenewedHolds(env, s, now, g);
      var s' := s.(server := Renewed(env, s.server, now));
      assert OrderlyTraffic(env, s, m, name) ==> OrderlyTraffic(env, s', m, name) by {
        RenewedTraffic(env, s, m, name, now);
      }
      assert OrderlyEnd(s, m, name) ==> OrderlyEnd(s', m, name) by { RenewedEnd(env, s, m, name, now); }
      ServerEventSyncs(env, s', m, name);
    case ClientClosed(now) =>
      RenewedHolds(env, s, now, g);
      ClosingHolds(s.(client := Renewed(env, s.client, now)), g);
      HoldsThenSynced(t, s.server.session, name);
    case ServerClosed(now) =>
      RenewedHolds(env, s, now, g);
      ClosingHolds(s.(server := Renewed(env, s.server, now)), g);
      HoldsThenSynced(t, s.server.session, name);
    case Tick(clientNow, serverNow) =>
      TickHolds(env, s, clientNow, serverNow, g);
      HoldsThenSynced(t, s.server.session, name);
    case NewClient(connected, clientNow, serverNow) =>
      ConnectHolds(env, s, connected, clientNow, serverNow, g);
      HoldsThenSynced(t, s.server.session, name);
    case Stop =>
      ClosingHolds(s, g);
      HoldsThenSynced(t, s.server.session, name);
  }

  lemma RenewedRequest(env: Env, s: State, m: Message, name: string, now: int)
    ensures OrderlyRequest(s.(client := Renewed(env, s.client, now)), m, name) <==>
            OrderlyRequest(s, m, name)
  {
    hide IsValid, Decided, NoRenames;
    assert Roster(s.(client := Renewed(env, s.client, now)), name) == Roster(s, name);
  }

  lemma RenewedTraffic(env: Env, s: State, m: Message, name: string, now: int)
    ensures OrderlyTraffic(env, s.(server := Renewed(env, s.server, now)), m, name) <==>
            OrderlyTraffic(env, s, m, name)
  {
    hide Leaves, Fits, Idle, NoMoves, Superseded;
  }

  lemma RenewedEnd(env: Env, s: State, m: Message, name: string, now: int)
    ensures OrderlyEnd(s.(server := Renewed(env, s.server, now)), m, name) <==> OrderlyEnd(s, m, name)
  {
    hide NoRenames;
  }

  /** Reconstruction over whole runs. On every run whose traffic about a channel is orderly,
      whether we leave the channel, lose the server and come again or not: whenever the
      server has us in the channel, the users known from before the log, taken through a
      replay of the log, are exactly the users the server knows of. */
  lemma {:induction false} RunsReconstruct(
    env: Env, states: seq<State>, events: seq<Event>, logs: Log, name: string, i: nat)
    requires IsRun(env, states, events) && states[0] == Initial(logs)
    requires LogsOk(logs, name)
    requires forall j | 0 <= j < |events| :: Orderly(env, states[j], events[j], name)
    requires i < |states|
    ensures Synced(states[i], name)
    ensures name in states[i].server.session.channels ==>
              Replayed(UsersIn(states[i].preLog, name), LogOf(states[i].logs, name)) ==
              UsersIn(states[i].server.session, name)
  {
    hide Step, Enabled, Orderly, LogsOk, UsersIn;
    if i == 0 {
      InitiallySynced(logs, name);
    } else {
      RunsReconstruct(env, states, events, logs, name, i - 1);
      StepSyncs(env, states[i - 1], events[i - 1], name);
    }
  }

  lemma InitiallySynced(logs: Log, name: string)
    requires LogsOk(logs, name)
    ensures Synced(Initial(logs), name)
  {
    hide LogsOk;
  }
}

/** What a client that rejoins a channel gets to see. */
module Rejoining {
  import opened Text
  import opened Messages
  import opened ClientIds
  import opened Views
  import opened Logs
  import opened Machine
  import opened Safety
  import opened Membership
  import opened Reconstruction

  /** Client and session from before the log agree about the channel. */
  predicate Equal(s: State, name: string)
  {
    && s.client.open && s.preLog.id == NOBODY
    && name in s.client.session.channels && name in s.preLog.channels
    && s.client.session.channels[name] == s.preLog.channels[name]
  }

  /** They agree, but for users of the channel still to be listed. */
  predicate EqualUpTo(s: State, name: string, rest: set<string>)
  {
    && s.client.open && s.preLog.id == NOBODY
    && name in s.client.session.channels && name in s.preLog.channels
    && s.client.session.channels[name].topic == s.preLog.channels[name].topic
    && s.client.session.channels[name].users + rest == s.preLog.channels[name].users
  }

  lemma JoinEqualises(env: Env, s: State, name: string)
    requires s.client.open && s.preLog.id == NOBODY && name !in s.client.session.channels
    ensures var (t, ok) := SendJoin(env, s, name);
            && (ok ==> EqualUpTo(t, name, Roster(s, name)))
            && (!ok ==> !t.client.open)
            && t.logs == s.logs && (ok ==> t.client.session.id == s.client.session.id)
  {
    hide SendClient, SessionFromServer, NickOf;
    var s', m := TouchPreLog(s, name), JoinMessage(s, name);
    Sent(env, s', m);
    SentAbout(env, s', m, name);
    KnownStep(s'.preLog, m, name);
    IdStays(s.client.session, m);
    var (t, ok) := SendClient(env, s', m);
    if ok && ChannelIn(t.preLog.channels, name).topic != "" {
      var m' := TopicMessage(t, name);
      Sent(env, t, m');
      SentAbout(env, t, m', name);
      KnownStep(t.preLog, m', name);
      IdStays(t.client.session, m');
    }
  }

  lemma IdStays(s: SessionView, m: Message)
    requires !m.command.Nick?
    ensures SessionFromServer(s, m).id == s.id
  {
  }

  lemma {:induction false} NamesEqualise(
    env: Env, s: State, name: string, myNick: string, nicks: seq<string>)
    requires EqualUpTo(s, name, set nick | nick in nicks)
    ensures var (t, ok) := SendNames(env, s, name, myNick, nicks);
            && (ok ==> Equal(t, name) && t.client.session.id == s.client.session.id)
            && (!ok ==> !t.client.open) && t.logs == s.logs
    decreases |nicks|
  {
    hide SendClient, SessionFromServer, NamesIn;
    if nicks != [] {
      var m := NamesMessage(s.serverPrefix, myNick, name, nicks[0]);
      Sent(env, s, m);
      SentAbout(env, s, m, name);
      KnownStep(s.preLog, m, name);
      IdStays(s.client.session, m);
      var (t, ok) := SendClient(env, s, m);
      if ok {
        assert (set nick | nick in nicks) == {nicks[0]} + set nick | nick in nicks[1..];
        NamesEqualise(env, AddClientUser(t, name, nicks[0]), name, myNick, nicks[1..]);
      }
    }
  }

  /** The log from place `i` on has no departure from the channel of the one who goes by `id`
      when it begins, whatever it renames us to on the way. */
  predicate NeverLeaves(id: ClientId, ms: seq<Message>, i: nat, name: string)
    requires i <= |ms|
    decreases |ms| - i
  {
    i == |ms| ||
    (!Departs(id, ms[i], name) && NeverLeaves(IdAfter(id, ms[i]), ms, i + 1, name))
  }

  lemma SendKeepsEqual(env: Env, s: State, m: Message, name: string)
    requires Equal(s, name) && !Leaves(s.client.session, m, name)
    ensures var (t, ok) := SendClient(env, s, m);
            && (ok ==> Equal(t, name) && t.client.session.id == IdAfter(s.client.session.id, m))
            && (!ok ==> !t.client.open) && t.logs == s.logs
  {
    hide SendClient, SessionFromServer, ChannelAfter, NickOf;
    Sent(env, s, m);
    OneChannel(s.client.session, m, name);
    OneChannel(s.preLog, m, name);
    IdFollows(s.client.session, m);
    assert SessionFromServer(s.preLog, m).id == NOBODY by { KnownStep(s.preLog, m, name); }
    assert !IsMe(s.preLog, m.prefix);
  }

  lemma {:induction false} ReplayKeepsEqual(env: Env, s: State, name: string, ms: seq<Message>, i: nat)
    requires Equal(s, name) && i <= |ms| && NeverLeaves(s.client.session.id, ms, i, name)
    ensures var t := ReplayFrom(env, s, name, ms, i); t.client.open ==> Equal(t, name)
    decreases |ms| - i
  {
    hide SendClient, SessionFromServer, IdAfter;
    if i < |ms| {
      SendKeepsEqual(env, s, ms[i], name);
      var (t, ok) := SendClient(env, s, ms[i]);
      if ok {
        var u := t.(ledger := t.ledger.(replayed := t.ledger.replayed + multiset{ms[i]}));
        ReplayKeepsEqual(env, u, name, ms, i + 1);
      }
    }
  }

  /** A rejoin after which the client is still connected leaves it with exactly the topic
      and users of the session from before the log, replay included, unless the log takes
      us out of the channel. It may rename anyone, us too; no nick has to be well formed: names that
      do not read back are garbled on both sides alike. */
  lemma RejoinEqualises(env: Env, s: State, name: string, order: seq<string>)
    requires s.client.open && s.preLog.id == NOBODY && name !in s.client.session.channels
    requires Enumerates(order, Roster(s, name))
    requires NeverLeaves(s.client.session.id, LogOf(s.logs, name), 0, name)
    ensures var t := Rejoin(env, s, name, order); t.client.open ==> Equal(t, name)
  {
    hide SendClient, SendNames, SendJoin, ReplayFrom, Roster, NeverLeaves, EndOfNamesMessage;
    JoinEqualises(env, s, name);
    var (t, ok) := SendJoin(env, s, name);
    if ok {
      assert TouchClient(t, name) == t by { TouchIsNothing(t, name); }
      assert (set nick | nick in order) == Roster(s, name);
      NamesEqualise(env, t, name, t.server.session.id.nick, order);
      var (u, named) := SendNames(env, t, name, t.server.session.id.nick, order);
      if named {
        var m := EndOfNamesMessage(u, name);
        assert m.command == RplEndofnames by { EndOfNamesIsEnd(u, name); }
        SendKeepsEqual(env, u, m, name);
        assert IdAfter(u.client.session.id, m) == u.client.session.id;
        var v := SendClient(env, u, m).0;
        if v.client.open { ReplayKeepsEqual(env, v, name, LogOf(v.logs, name), 0); }
      }
    }
  }

  // ---- When it is what the server sees ----------------------------------------------------------

  /** What the nicks are read back as, one NAMES reply each. */
  function NamesOfAll(nicks: seq<string>): set<string>
  {
    if nicks == [] then {} else NamesIn(nicks[0]) + NamesOfAll(nicks[1..])
  }

  lemma NameIsKnown(preLog: SessionView, m: Message, name: string)
    requires preLog.id == NOBODY && m.command.RplNamereply? && m.Param(2) == name
    ensures var after := SessionFromServer(preLog, m);
            after.id == NOBODY && UsersIn(after, name) == UsersIn(preLog, name) + NamesIn(m.Param(3))
  {
    hide SessionFromServer, UsersIn;
    KnownStep(preLog, m, name);
  }

  lemma {:induction false} NamesAreKnown(
    env: Env, s: State, name: string, myNick: string, nicks: seq<string>)
    requires s.preLog.id == NOBODY && s.server.session.flags.Done()
    ensures var (t, ok) := SendNames(env, s, name, myNick, nicks);
            && t.preLog.id == NOBODY && t.logs == s.logs && t.server == s.server
            && (ok ==> UsersIn(t.preLog, name) == UsersIn(s.preLog, name) + NamesOfAll(nicks))
    decreases |nicks|
  {
    hide SendClient, SessionFromServer, NamesIn;
    if nicks != [] {
      var m := NamesMessage(s.serverPrefix, myNick, name, nicks[0]);
      Sent(env, s, m);
      NameIsKnown(s.preLog, m, name);
      var (t, ok) := SendClient(env, s, m);
      if ok { NamesAreKnown(env, AddClientUser(t, name, nicks[0]), name, myNick, nicks[1..]); }
    }
  }

  lemma JoinIsKnown(env: Env, s: State, name: string)
    requires s.client.open && s.preLog.id == NOBODY && s.server.session.flags.Done()
    ensures var (t, ok) := SendJoin(env, s, name);
            && t.preLog.id == NOBODY && t.logs == s.logs && t.server == s.server
            && (ok ==> UsersIn(t.preLog, name) == Roster(s, name))
  {
    hide SendClient, SessionFromServer, NickOf;
    var s', m := TouchPreLog(s, name), JoinMessage(s, name);
    Sent(env, s', m);
    KnownStep(s'.preLog, m, name);
    var t := SendClient(env, s', m).0;
    Sent(env, t, TopicMessage(t, name));
    KnownStep(t.preLog, TopicMessage(t, name), name);
  }

  /** A replay that the client survives takes the users through all of the log. */
  lemma {:induction false} ReplayIsKnown(
    env: Env, s: State, name: string, ms: seq<Message>, i: nat, users: set<string>)
    requires i <= |ms| && s.preLog.id == NOBODY && s.server.session.flags.Done()
    requires forall m | m in ms :: IsMembership(m) && m.Param(0) == name
    requires UsersIn(s.preLog, name) == Replayed(users, ms[..i])
    ensures var t := ReplayFrom(env, s, name, ms, i);
            && t.server == s.server
            && (t.client.open ==> UsersIn(t.preLog, name) == Replayed(users, ms))
    decreases |ms| - i
  {
    hide SendClient, SessionFromServer, Replayed, UsersAfter;
    if i == |ms| {
      assert ms[..i] == ms;
    } else {
      assert ms[i] in ms;
      Sent(env, s, ms[i]);
      KnownStep(s.preLog, ms[i], name);
      ReplayedMore(users, ms, i);
      var (t, ok) := SendClient(env, s, ms[i]);
      if ok {
        var u := t.(ledger := t.ledger.(replayed := t.ledger.replayed + multiset{ms[i]}));
        ReplayIsKnown(env, u, name, ms, i + 1, users);
      }
    }
  }

  /** The users from before the log after a rejoin that the client survives. */
  lemma RejoinIsKnown(env: Env, s: State, name: string, order: seq<string>)
    requires s.client.open && s.preLog.id == NOBODY && s.server.session.flags.Done() && LogsOk(s.logs, name)
    ensures var t := Rejoin(env, s, name, order);
            && t.server == s.server
            && (t.client.open ==>
                  UsersIn(t.preLog, name) == Replayed(Roster(s, name) + NamesOfAll(order), LogOf(s.logs, name)))
  {
    hide SendClient, SendNames, SendJoin, ReplayFrom, Roster, Replayed, EndOfNamesMessage, NamesOfAll, LogsOk;
    JoinIsKnown(env, s, name);
    var (t, ok) := SendJoin(env, s, name);
    if !ok {
      FailedJoinCloses(env, s, name);
    } else {
      var t' := TouchClient(t, name);
      NamesAreKnown(env, t', name, t.server.session.id.nick, order);
      FailedNamesClose(env, t', name, t.server.session.id.nick, order);
      var (u, named) := SendNames(env, t', name, t.server.session.id.nick, order);
      if named {
        var m := EndOfNamesMessage(u, name);
        assert Neutral(m, name) by { EndOfNamesIsNeutral(u, name); }
        Sent(env, u, m);
        KnownStep(u.preLog, m, name);
        var v := SendClient(env, u, m).0;
        if v.client.open {
          var log, users := LogOf(s.logs, name), Roster(s, name) + NamesOfAll(order);
          LoggedMessages(s.logs, name);
          assert log[..0] == [];
          NothingReplayed(users);
          ReplayIsKnown(env, v, name, log, 0, users);
        }
      }
    }
  }

  lemma FailedJoinCloses(env: Env, s: State, name: string)
    ensures !SendJoin(env, s, name).1 ==> !SendJoin(env, s, name).0.client.open
  {
    hide SendClient;
    var s' := TouchPreLog(s, name);
    Sent(env, s', JoinMessage(s, name));
    var t := SendClient(env, s', JoinMessage(s, name)).0;
    Sent(env, t, TopicMessage(t, name));
  }

  lemma {:induction false} FailedNamesClose(
    env: Env, s: State, name: string, myNick: string, nicks: seq<string>)
    ensures !SendNames(env, s, name, myNick, nicks).1 ==> !SendNames(env, s, name, myNick, nicks).0.client.open
    decreases |nicks|
  {
    hide SendClient;
    if nicks != [] {
      var m := NamesMessage(s.serverPrefix, myNick, name, nicks[0]);
      Sent(env, s, m);
      var t := SendClient(env, s, m).0;
      FailedNamesClose(env, AddClientUser(t, name, nicks[0]), name, myNick, nicks[1..]);
    }
  }

  lemma {:induction false} InNamesOfAll(nicks: seq<string>)
    ensures forall x :: x in NamesOfAll(nicks) <==> exists nick :: nick in nicks && x in NamesIn(nick)
  {
    hide NamesIn;
    if nicks != [] {
      InNamesOfAll(nicks[1..]);
      assert forall nick :: nick in nicks <==> nick == nicks[0] || nick in nicks[1..];
    }
  }

  /** A client that rejoins and stays connected is shown exactly the users the server knows
      of if and only if what it is shown on the way fits the log. */
  lemma RejoinShowsExactly(env: Env, s: State, name: string, order: seq<string>)
    requires Synced(s, name) && s.client.open && s.server.session.flags.Done()
    requires name in s.server.session.channels && name !in s.client.session.channels
    requires Enumerates(order, Roster(s, name))
    requires NeverLeaves(s.client.session.id, LogOf(s.logs, name), 0, name)
    ensures var t := Rejoin(env, s, name, order);
            t.client.open ==>
              (UsersIn(t.client.session, name) == UsersIn(t.server.session, name) <==> ListsFit(s, name))
  {
    hide Rejoin, Roster, Replayed, NamesIn, NamesOfAll, Decided, NeverLeaves, LogsOk, NoMoves, LogOf, AllMembership;
    RejoinEqualises(env, s, name, order);
    RejoinIsKnown(env, s, name, order);
    LoggedMessages(s.logs, name);
    var users, log := UsersIn(s.preLog, name), LogOf(s.logs, name);
    var others := Roster(s, name) + NamesOfAll(order);
    RosterHasAll(s, name);
    assert users + others == others;
    ListedEarlyExactly(users, log, others);
    assert ListsFit(s, name) <==> Decided(users, log, others) by {
      InNamesOfAll(order);
      DecidedInParts(users, log, Roster(s, name), order);
    }
  }

  lemma DecidedInParts(users: set<string>, log: seq<Message>, roster: set<string>, order: seq<string>)
    requires forall nick :: nick in order <==> nick in roster
    ensures Decided(users, log, roster + NamesOfAll(order)) <==>
            Decided(users, log, roster) && forall nick | nick in roster :: Decided(users, log, NamesIn(nick))
  {
    hide NamesIn, NamesOfAll, Verdict;
    InNamesOfAll(order);
    if Decided(users, log, roster + NamesOfAll(order)) {
      forall nick | nick in roster ensures Decided(users, log, NamesIn(nick)) {
        assert forall x | x in NamesIn(nick) :: x in NamesOfAll(order);
      }
    }
  }

  lemma TouchIsNothing(s: State, name: string)
    requires name in s.client.session.channels
    ensures TouchClient(s, name) == s
  {
  }

  lemma EndOfNamesIsEnd(s: State, name: string)
    ensures EndOfNamesMessage(s, name).command == RplEndofnames
  {
  }

  /** A request to rejoin, as the loop finds it. */
  predicate IsRejoin(s: State, e: Event, name: string)
  {
    && e.ClientMessage? && e.message.command.Join? && IsValid(e.message) && e.message.Param(0) == name
    && s.client.session.flags.Done()
    && name in s.server.session.channels && name !in s.client.session.channels
  }

  lemma RejoinStep(env: Env, s: State, e: Event, name: string)
    requires Enabled(s, e) && IsRejoin(s, e, name) && s.preLog.id == NOBODY
    requires NeverLeaves(s.client.session.id, LogOf(s.logs, name), 0, name)
    ensures Step(env, s, e).client.open ==> Equal(Step(env, s, e), name)
  {
    hide Rejoin, NeverLeaves;
    var s' := s.(client := Renewed(env, s.client, e.now));
    var t := s'.(client := s'.client.(session := SessionFromClient(s'.client.session, e.message)));
    assert Roster(t, name) == Roster(s, name);
    RejoinEqualises(env, t, name, e.order);
  }

  /** A rejoined client sees what the server sees. On every orderly run, an event in which
      a client rejoins the channel and stays connected leaves it with exactly the users
      the server knows of. */
  lemma RejoinShowsServersUsers(
    env: Env, states: seq<State>, events: seq<Event>, logs: Log, name: string, i: nat)
    requires IsRun(env, states, events) && states[0] == Initial(logs)
    requires LogsOk(logs, name)
    requires forall j | 0 <= j < |events| :: Orderly(env, states[j], events[j], name)
    requires i < |events| && IsRejoin(states[i], events[i], name)
    requires NeverLeaves(states[i].client.session.id, LogOf(states[i].logs, name), 0, name)
    ensures var t := states[i + 1];
            t.client.open ==>
              && name in t.client.session.channels && name in t.server.session.channels
              && t.client.session.channels[name].users == t.server.session.channels[name].users
  {
    hide Step, Enabled, Orderly, WellKept, NoMoves, NeverLeaves, Replayed, IsRejoin;
    RunsReconstruct(env, states, events, logs, name, i);
    RunsReconstruct(env, states, events, logs, name, i + 1);
    assert states[i].preLog.id == NOBODY;
    assert name in states[i].server.session.channels by { RejoinIsOfHeld(states[i], events[i], name); }
    RejoinStep(env, states[i], events[i], name);
    var t := states[i + 1];
    if t.client.open {
      RegisteredIfShown(t, name);
      NothingToReplay(t, GoalOf(t.server.session, name));
    }
  }

  lemma RejoinIsOfHeld(s: State, e: Event, name: string)
    requires IsRejoin(s, e, name)
    ensures name in s.server.session.channels
  {
  }

  /** At every moment of an orderly run, all users a client in the channel has been shown
      are in it. */
  lemma ShownUsersAreThere(
    env: Env, states: seq<State>, events: seq<Event>, logs: Log, name: string, i: nat)
    requires IsRun(env, states, events) && states[0] == Initial(logs)
    requires LogsOk(logs, name)
    requires forall j | 0 <= j < |events| :: Orderly(env, states[j], events[j], name)
    requires i < |states| && name in states[i].client.session.channels
    ensures UsersIn(states[i].client.session, name) <= UsersIn(states[i].server.session, name)
  {
    hide Step, Enabled, Orderly, Replayed, NoMoves, AllValid, IsTalk;
    RunsReconstruct(env, states, events, logs, name, i);
    RunsAreSafe(env, states, events, logs, i);
    NothingToReplay(states[i], GoalOf(states[i].server.session, name));
  }

  // ---- What the server hears of it ------------------------------------------------------------

  lemma {:induction false} NamesTellServerNothing(
    env: Env, s: State, name: string, myNick: string, nicks: seq<string>)
    ensures SendNames(env, s, name, myNick, nicks).0.toServer == s.toServer
    decreases |nicks|
  {
    hide SendClient;
    if nicks != [] {
      var m := NamesMessage(s.serverPrefix, myNick, name, nicks[0]);
      Sent(env, s, m);
      var t := SendClient(env, s, m).0;
      NamesTellServerNothing(env, AddClientUser(t, name, nicks[0]), name, myNick, nicks[1..]);
    }
  }

  lemma {:induction false} ReplayTellsServerNothing(env: Env, s: State, name: string, ms: seq<Message>, i: nat)
    requires i <= |ms|
    ensures ReplayFrom(env, s, name, ms, i).toServer == s.toServer
    decreases |ms| - i
  {
    hide SendClient;
    if i < |ms| {
      Sent(env, s, ms[i]);
      var (t, ok) := SendClient(env, s, ms[i]);
      if ok {
        var u := t.(ledger := t.ledger.(replayed := t.ledger.replayed + multiset{ms[i]}));
        ReplayTellsServerNothing(env, u, name, ms, i + 1);
      }
    }
  }

  lemma RejoinTellsServerNothing(env: Env, s: State, name: string, order: seq<string>)
    ensures Rejoin(env, s, name, order).toServer == s.toServer
  {
    hide SendClient, SendNames, ReplayFrom, JoinMessage, TopicMessage, EndOfNamesMessage;
    Sent(env, TouchPreLog(s, name), JoinMessage(s, name));
    var t := SendClient(env, TouchPreLog(s, name), JoinMessage(s, name)).0;
    Sent(env, t, TopicMessage(t, name));
    var u := SendJoin(env, s, name).0;
    NamesTellServerNothing(env, TouchClient(u, name), name, u.server.session.id.nick, order);
    var v := SendNames(env, TouchClient(u, name), name, u.server.session.id.nick, order).0;
    Sent(env, v, EndOfNamesMessage(v, name));
    var w := SendClient(env, v, EndOfNamesMessage(v, name)).0;
    ReplayTellsServerNothing(env, w, name, LogOf(w.logs, name), 0);
  }

  /** A registered client's JOIN reaches the server exactly when neither side is in the channel
      yet (and the write works out); if the client is in it already, nobody hears of it. */
  lemma JoinReachesServer(env: Env, s: State, m: Message, order: seq<string>)
    requires m.command.Join? && IsValid(m) && s.server.open && s.client.session.flags.Done()
    ensures var t, name := HandleClient(env, s, m, order), m.Param(0);
            && (t.toServer == s.toServer + [m] <==>
                name !in s.client.session.channels && name !in s.server.session.channels
                && env.writes(s.attempts))
            && (t.toServer == s.toServer || t.toServer == s.toServer + [m])
            && (name in s.client.session.channels ==> t.toClient == s.toClient && t.toServer == s.toServer)
  {
    hide Rejoin;
    var t := s.(client := s.client.(session := SessionFromClient(s.client.session, m)));
    RejoinTellsServerNothing(env, t, m.Param(0), order);
    assert s.toServer + [m] != s.toServer;
  }
}

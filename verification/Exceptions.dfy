/** Where the reconstruction of a channel's users fails, and exactly when: what becomes of
    each kind of message that changes the users of a channel. `Scenarios` has a run of the
    proxy for each way to fail. */
module Exceptions {
  import opened Text
  import opened Messages
  import opened ClientIds
  import opened Views
  import opened Logs
  import opened Machine
  import opened Safety
  import opened Membership
  import opened Reconstruction

  /** A replay now would lead to the users the server knows of. */
  ghost predicate Reconstructible(s: State, name: string)
  {
    Replayed(UsersIn(s.preLog, name), LogOf(s.logs, name)) == UsersIn(s.server.session, name)
  }

  predicate IsMove(m: Message) { m.command.Join? || m.command.Part? || m.command.Kick? }

  /** A message that bears on the users of the channel. A server that has us in a channel, or
      has a registered client, has finished its handshake. */
  predicate BearsOn(s: State, m: Message, name: string)
  {
    && IsValid(m) && Indexable(m) && !m.command.RplTopic? && !Neutral(m, name)
    && (s.client.session.flags.Done() || m.command.RplNamereply? ==> s.server.session.flags.Done())
  }

  /** The message is passed on at once, ahead of whatever the log holds. Names are passed on
      even to a client that has yet to register. */
  predicate Overtakes(env: Env, s: State, m: Message)
  {
    Told(env, s) && (m.command.RplNamereply? || s.client.session.flags.Done())
  }

  /** What `HandleServer` leaves of the two views and the log. */
  lemma Outcome(env: Env, s: State, m: Message, name: string)
    requires s.preLog.id == NOBODY && BearsOn(s, m, name)
    requires !s.client.open ==> s.client.session == NEW_SESSION
    ensures var t := HandleServer(env, s, m);
            && t.server == Track(s, m).server
            && UsersIn(t.preLog, name) ==
               (if Overtakes(env, s, m) then UsersAfter(UsersIn(s.preLog, name), m) else UsersIn(s.preLog, name))
            && LogOf(t.logs, name) ==
               if !Overtakes(env, s, m) && (IsMove(m) || (m.command.Nick? && m.Param(0) == name))
               then LogOf(s.logs, name) + [m] else LogOf(s.logs, name)
  {
    hide SendClient, SessionFromServer, UsersIn, UsersAfter, IsValid, Indexable, Track;
    var s' := Track(s, m);
    TrackKeepsRest(s, m);
    SentEither(env, s, m);
    Sent(env, s', m);
    KnownStep(s.preLog, m, name);
  }

  /** A message that is not passed on at once: joins and departures are kept, and come out
      right; renames, quits and names are not, and come out right exactly when they leave
      the users as they are (a rename also when it is kept after all, with the channel
      for the new nick). */
  lemma MissedWhileAway(env: Env, s: State, m: Message, name: string)
    requires Synced(s, name) && name in s.server.session.channels && BearsOn(s, m, name)
    requires !Leaves(s.server.session, m, name) && !Overtakes(env, s, m)
    ensures Reconstructible(HandleServer(env, s, m), name) <==>
            IsMove(m) || Idle(UsersIn(s.server.session, name), m) || (m.command.Nick? && m.Param(0) == name)
  {
    hide HandleServer, UsersIn, UsersAfter, LogsOk, NoMoves, Idle, Neutral, Overtakes, CaughtUp, Replayed, LogOf,
         Track, Leaves, Indexable, IsValid;
    Outcome(env, s, m, name);
    TrackedGoal(s, m, name);
    IdleExactly(UsersIn(s.server.session, name), m);
    ReplayedOneMore(UsersIn(s.preLog, name), LogOf(s.logs, name), m);
  }

  lemma ReplayedOneMore(users: set<string>, log: seq<Message>, m: Message)
    ensures Replayed(users, log + [m]) == UsersAfter(Replayed(users, log), m)
  {
    assert (log + [m])[..|log|] == log;
  }

  /** A message that is passed on at once, wherever the client stands: the users come out
      right exactly when the log does not contradict it. */
  lemma LiveBeforeRejoin(env: Env, s: State, m: Message, name: string)
    requires Synced(s, name) && name in s.server.session.channels && BearsOn(s, m, name)
    requires !Leaves(s.server.session, m, name) && Overtakes(env, s, m)
    ensures Reconstructible(HandleServer(env, s, m), name) <==>
            Fits(UsersIn(s.preLog, name), LogOf(s.logs, name), m)
  {
    hide HandleServer, UsersIn, UsersAfter, LogsOk, NoMoves, Fits, Neutral, Overtakes, CaughtUp, AllMembership;
    Outcome(env, s, m, name);
    TrackedGoal(s, m, name);
    ReadyIfShown(s, name);
    OvertakingExactly(UsersIn(s.preLog, name), LogOf(s.logs, name), m);
  }

  /** The session from before the log and the log outlive our leaving a channel, and the
      server connection. When we join a channel that the server does not have us in, again
      or on a new connection, the users come out right exactly when the two together lead
      to nobody but us, and the log does not end with our leaving if the JOIN overtakes
      it. */
  lemma StaleOnJoining(env: Env, s: State, m: Message, name: string, nick: string)
    requires s.preLog.id == NOBODY && LogsOk(s.logs, name) && name !in s.server.session.channels
    requires !s.client.open ==> s.client.session == NEW_SESSION
    requires m.command.Join? && m.Param(0) == name && BearsOn(s, m, name) && NickOf(m.prefix) == Some(nick)
    ensures Reconstructible(HandleServer(env, s, m), name) <==>
            && Replayed(UsersIn(s.preLog, name), LogOf(s.logs, name)) <= {nick}
            && (Overtakes(env, s, m) ==> Verdict(LogOf(s.logs, name), nick) != Some(false))
  {
    hide HandleServer, UsersIn, LogsOk, LogOf, Replayed, Verdict, NickOf, BearsOn, Overtakes, AllMembership, Track;
    Outcome(env, s, m, name);
    TrackedGoal(s, m, name);
    assert UsersIn(s.server.session, name) == {} by { NotThere(s.server.session, name); }
    LoggedMessages(s.logs, name);
    var users, log := UsersIn(s.preLog, name), LogOf(s.logs, name);
    ReplayedOneMore(users, log, m);
    if Overtakes(env, s, m) {
      ListedFirst(users, log, nick);
    } else {
      JustUs(Replayed(users, log), nick);
    }
  }

  lemma NotThere(s: SessionView, name: string)
    requires name !in s.channels
    ensures UsersIn(s, name) == {}
  {
  }

  lemma JustUs(users: set<string>, nick: string)
    ensures users + {nick} == {nick} <==> users <= {nick}
  {
    assert users <= users + {nick};
  }

  lemma ListedFirst(users: set<string>, log: seq<Message>, nick: string)
    requires AllMembership(log)
    ensures Replayed(users + {nick}, log) == {nick} <==>
            Replayed(users, log) <= {nick} && Verdict(log, nick) != Some(false)
  {
    hide Replayed, Verdict, AllMembership;
    var first, last := Replayed(users + {nick}, log), Replayed(users, log);
    forall x
      ensures x in last <==> match Verdict(log, x) case Some(joined) => joined case None => x in users
      ensures x in first <==> match Verdict(log, x) case Some(joined) => joined case None => x in users + {nick}
    {
      ReplayedByVerdict(users, log, x);
      ReplayedByVerdict(users + {nick}, log, x);
    }
    assert forall x | x != nick :: x in first <==> x in last;
    assert nick in first <==> Verdict(log, nick) != Some(false);
    assert forall x | x in last :: x == nick || x in first;
  }
}

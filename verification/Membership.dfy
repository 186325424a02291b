/** What replaying a channel's log does to its users, however often it is broken off. */
module Membership {
  import opened Text
  import opened Messages
  import opened ClientIds
  import opened Views

  /** The users after all of `log`, from `users`. */
  function Replayed(users: set<string>, log: seq<Message>): set<string>
  {
    if log == [] then users
    else UsersAfter(Replayed(users, log[..|log| - 1]), log[|log| - 1])
  }

  lemma NothingReplayed(users: set<string>)
    ensures Replayed(users, []) == users
  {
  }

  /** Messages a channel's log holds while renames are delivered live. */
  predicate IsMembership(m: Message)
  {
    m.command.Join? || m.command.Part? || m.command.Kick? || m.command.Privmsg? || m.command.Notice?
  }

  ghost predicate AllMembership(log: seq<Message>)
  {
    forall m | m in log :: IsMembership(m)
  }

  /** Whose membership the message decides. */
  function Mover(m: Message): Option<string>
  {
    if m.command.Join? || m.command.Part? || m.command.Kick? then NickOf(m.prefix) else None
  }

  ghost predicate NoMoves(log: seq<Message>)
  {
    forall m | m in log :: Mover(m) == None
  }

  /** What the log says about `nick`: its last move decides, None if it never moves. */
  function Verdict(log: seq<Message>, nick: string): Option<bool>
  {
    if log == [] then None
    else if Mover(log[|log| - 1]) == Some(nick) then Some(log[|log| - 1].command.Join?)
    else Verdict(log[..|log| - 1], nick)
  }

  lemma {:induction false} ReplayedByVerdict(users: set<string>, log: seq<Message>, nick: string)
    requires AllMembership(log)
    ensures nick in Replayed(users, log) <==>
            match Verdict(log, nick) case Some(joined) => joined case None => nick in users
  {
    hide NickOf;
    if log != [] {
      assert IsMembership(log[|log| - 1]);
      ReplayedByVerdict(users, log[..|log| - 1], nick);
    }
  }

  lemma {:induction false} VerdictOfPrefix(log: seq<Message>, nick: string, k: nat)
    requires k <= |log| && Verdict(log, nick) == None
    ensures Verdict(log[..k], nick) == None
  {
    if k == |log| {
      assert log[..k] == log;
    } else {
      VerdictOfPrefix(log[..|log| - 1], nick, k);
      assert log[..|log| - 1][..k] == log[..k];
    }
  }

  /** A replay that broke off after `k` messages does not change where a full one leads. */
  lemma CutReplayIsHarmless(users: set<string>, log: seq<Message>, k: nat)
    requires AllMembership(log) && k <= |log|
    ensures Replayed(Replayed(users, log[..k]), log) == Replayed(users, log)
  {
    hide Replayed, Verdict, AllMembership;
    assert AllMembership(log[..k]) by { PrefixIsMembership(log, k); }
    forall nick
      ensures nick in Replayed(Replayed(users, log[..k]), log) <==> nick in Replayed(users, log)
    {
      ReplayedByVerdict(Replayed(users, log[..k]), log, nick);
      ReplayedByVerdict(users, log, nick);
      ReplayedByVerdict(users, log[..k], nick);
      if Verdict(log, nick) == None { VerdictOfPrefix(log, nick, k); }
    }
  }

  lemma PrefixIsMembership(log: seq<Message>, k: nat)
    requires AllMembership(log) && k <= |log|
    ensures AllMembership(log[..k])
  {
  }

  /** Each of `others` is one of the users, or the log has a last word on it. */
  ghost predicate Decided(users: set<string>, log: seq<Message>, others: set<string>)
  {
    forall nick | nick in others :: nick in users || Verdict(log, nick) != None
  }

  /** Others listed before a replay make no difference exactly if they are all decided. */
  lemma ListedEarlyExactly(users: set<string>, log: seq<Message>, others: set<string>)
    requires AllMembership(log)
    ensures Replayed(users + others, log) == Replayed(users, log) <==> Decided(users, log, others)
  {
    hide Replayed, Verdict, AllMembership;
    var more, less := Replayed(users + others, log), Replayed(users, log);
    forall nick
      ensures nick in more <==> match Verdict(log, nick) case Some(joined) => joined case None => nick in users + others
      ensures nick in less <==> match Verdict(log, nick) case Some(joined) => joined case None => nick in users
    {
      ReplayedByVerdict(users + others, log, nick);
      ReplayedByVerdict(users, log, nick);
    }
    if more == less {
      forall nick | nick in others ensures nick in users || Verdict(log, nick) != None {
        assert nick in more <==> nick in less;
      }
    }
  }

  lemma {:induction false} NoMovesNoChange(users: set<string>, log: seq<Message>)
    requires AllMembership(log) && NoMoves(log)
    ensures Replayed(users, log) == users
  {
    hide NickOf;
    if log != [] {
      assert IsMembership(log[|log| - 1]) && Mover(log[|log| - 1]) == None;
      NoMovesNoChange(users, log[..|log| - 1]);
    }
  }

  // ---- Messages that overtake a log -----------------------------------------------------------

  /** The message leaves these users as they are. */
  predicate Idle(users: set<string>, m: Message)
  {
    if m.command.RplNamereply? then NamesIn(m.Param(3)) <= users
    else
      match NickOf(m.prefix)
      case None => true
      case Some(nick) =>
        match m.command
        case Join => nick in users
        case Part | Kick | Quit => nick !in users
        case Nick => nick !in users || nick == m.Param(0)
        case _ => true
  }

  lemma IdleExactly(users: set<string>, m: Message)
    ensures UsersAfter(users, m) == users <==> Idle(users, m)
  {
    hide NamesIn;
    if m.command.RplNamereply? {
      assert users + NamesIn(m.Param(3)) == users <==> NamesIn(m.Param(3)) <= users by {
        if users + NamesIn(m.Param(3)) == users {
          assert NamesIn(m.Param(3)) <= users + NamesIn(m.Param(3));
        }
      }
    } else if NickOf(m.prefix).Some? {
      var nick := NickOf(m.prefix).value;
      assert nick in users + {nick} && nick !in users - {nick};
      if m.command.Nick? && nick in users && nick != m.Param(0) {
        assert nick !in users - {nick} + {m.Param(0)};
      }
    }
  }

  /** A rename that is told before the log: nobody goes by the old nick once the log is
      replayed, and by the new one does who should. */
  predicate RenameFits(users: set<string>, log: seq<Message>, was: string, now: string)
  {
    was == now ||
    (Verdict(log, was) != Some(true) &&
     match Verdict(log, now)
     case Some(true) => true
     case Some(false) => was !in users || Verdict(log, was) == Some(false)
     case None => was !in users || Verdict(log, was) == None || now in users)
  }

  /** The log does not contradict a message that overtakes it. */
  ghost predicate Fits(users: set<string>, log: seq<Message>, m: Message)
  {
    if m.command.RplNamereply? then
      forall nick | nick in NamesIn(m.Param(3)) :: Verdict(log, nick) != Some(false)
    else
      match NickOf(m.prefix)
      case None => true
      case Some(nick) =>
        match m.command
        case Join => Verdict(log, nick) != Some(false)
        case Part | Kick | Quit => Verdict(log, nick) != Some(true)
        case Nick => RenameFits(users, log, nick, m.Param(0))
        case _ => true
  }

  lemma ReplayedUser(users: set<string>, log: seq<Message>, m: Message, nick: string)
    requires AllMembership(log)
    ensures nick in Replayed(users, log) <==>
            match Verdict(log, nick) case Some(joined) => joined case None => nick in users
    ensures nick in Replayed(UsersAfter(users, m), log) <==>
            match Verdict(log, nick) case Some(joined) => joined case None => nick in UsersAfter(users, m)
  {
    hide UsersAfter;
    ReplayedByVerdict(users, log, nick);
    ReplayedByVerdict(UsersAfter(users, m), log, nick);
  }

  /** Telling a message before a replay or after it comes to the same exactly if the log does
      not contradict it. */
  lemma OvertakingExactly(users: set<string>, log: seq<Message>, m: Message)
    requires AllMembership(log)
    ensures Replayed(UsersAfter(users, m), log) == UsersAfter(Replayed(users, log), m) <==> Fits(users, log, m)
  {
    hide Replayed, Verdict, AllMembership, NickOf, NamesIn;
    var first, last := Replayed(UsersAfter(users, m), log), UsersAfter(Replayed(users, log), m);
    forall nick
      ensures nick in Replayed(users, log) <==>
              match Verdict(log, nick) case Some(joined) => joined case None => nick in users
      ensures nick in first <==>
              match Verdict(log, nick) case Some(joined) => joined case None => nick in UsersAfter(users, m)
    {
      ReplayedUser(users, log, m, nick);
    }
    if Fits(users, log, m) {
      assert first == last;
    } else if m.command.RplNamereply? {
      var nick :| nick in NamesIn(m.Param(3)) && Verdict(log, nick) == Some(false);
      assert nick in last && nick !in first;
    } else {
      var nick := NickOf(m.prefix).value;
      if m.command.Nick? {
        var other := m.Param(0);
        assert (nick in first) != (nick in last) || (other in first) != (other in last);
      } else {
        assert (nick in first) != (nick in last);
      }
    }
  }

  lemma NothingContradicts(users: set<string>, log: seq<Message>, m: Message)
    requires NoMoves(log)
    ensures Fits(users, log, m)
  {
    hide NickOf, NamesIn;
    forall nick ensures Verdict(log, nick) == None { NoVerdict(log, nick); }
  }

  lemma {:induction false} NoVerdict(log: seq<Message>, nick: string)
    requires NoMoves(log)
    ensures Verdict(log, nick) == None
  {
    hide NickOf;
    if log != [] {
      assert Mover(log[|log| - 1]) == None;
      NoVerdict(log[..|log| - 1], nick);
    }
  }

  /** The message leaves of these users only what it would make of nobody. */
  predicate Superseded(users: set<string>, m: Message)
  {
    if m.command.RplNamereply? then users <= NamesIn(m.Param(3))
    else
      match NickOf(m.prefix)
      case Some(nick) =>
        if m.command.Join? || m.command.Part? || m.command.Kick? then users <= {nick} else users == {}
      case None => users == {}
  }

  lemma SupersededExactly(users: set<string>, m: Message)
    requires !m.command.Quit? && !m.command.Nick?
    ensures UsersAfter(users, m) == UsersAfter({}, m) <==> Superseded(users, m)
  {
    hide NickOf, NamesIn;
    var after, alone := UsersAfter(users, m), UsersAfter({}, m);
    if after == alone {
      forall x | x in users ensures x in after || (NickOf(m.prefix) == Some(x) && (m.command.Part? || m.command.Kick?)) {
      }
    }
  }

  // ---- The logs kept under a nick -------------------------------------------------------------

  /** Messages the log of a nick holds: what was said to it, and renames into it. */
  predicate IsForNick(m: Message, name: string)
  {
    m.command.Privmsg? || m.command.Notice? || (m.command.Nick? && m.Param(0) == name)
  }

  ghost predicate AllForNick(log: seq<Message>, name: string)
  {
    forall m | m in log :: IsForNick(m, name)
  }

  /** The nicks that the log's renames are from. */
  function Renamed(log: seq<Message>): set<string>
  {
    if log == [] then {}
    else
      Renamed(log[..|log| - 1]) +
      (if log[|log| - 1].command.Nick? && NickOf(log[|log| - 1].prefix).Some?
       then {NickOf(log[|log| - 1].prefix).value} else {})
  }

  /** Whoever is in the channel under one of the old nicks ends up under the new one. */
  lemma {:induction false} ReplayedRenames(users: set<string>, log: seq<Message>, name: string)
    requires AllForNick(log, name)
    ensures Replayed(users, log) ==
            if users !! Renamed(log) then users else users - Renamed(log) + {name}
  {
    hide NickOf;
    if log != [] {
      var init, last := log[..|log| - 1], log[|log| - 1];
      assert IsForNick(last, name) && forall m | m in init :: m in log;
      ReplayedRenames(users, init, name);
    }
  }

  lemma {:induction false} RenamedOfPrefix(log: seq<Message>, k: nat)
    requires k <= |log|
    ensures Renamed(log[..k]) <= Renamed(log)
  {
    if k == |log| {
      assert log[..k] == log;
    } else {
      RenamedOfPrefix(log[..|log| - 1], k);
      assert log[..|log| - 1][..k] == log[..k];
    }
  }

  lemma CutReplayOfNickIsHarmless(users: set<string>, log: seq<Message>, name: string, k: nat)
    requires AllForNick(log, name) && k <= |log|
    ensures Replayed(Replayed(users, log[..k]), log) == Replayed(users, log)
  {
    hide Replayed, Renamed;
    assert forall m | m in log[..k] :: m in log;
    RenamedOfPrefix(log, k);
    ReplayedRenames(users, log[..k], name);
    ReplayedRenames(users, log, name);
    ReplayedRenames(Replayed(users, log[..k]), log, name);
  }

  // ---- Any history of logging and broken-off replays -----------------------------------------

  datatype Happening = Logged(m: Message) | CutOff(sent: nat)

  /** The users known from before the log, and the log. */
  datatype Record = Record(users: set<string>, log: seq<Message>)

  function After(r: Record, hs: seq<Happening>): Record
  {
    if hs == [] then r
    else
      var before := After(r, hs[..|hs| - 1]);
      match hs[|hs| - 1]
      case Logged(m) => before.(log := before.log + [m])
      case CutOff(sent) =>
        if sent <= |before.log|
        then before.(users := Replayed(before.users, before.log[..sent])) else before
  }

  function LoggedIn(hs: seq<Happening>): seq<Message>
  {
    if hs == [] then []
    else
      LoggedIn(hs[..|hs| - 1]) +
      (match hs[|hs| - 1] case Logged(m) => [m] case CutOff(_) => [])
  }

  /** The logs that the proxy keeps, a channel's or a nick's, each under its own name. */
  ghost predicate IsKept(log: seq<Message>, name: string)
  {
    AllMembership(log) || AllForNick(log, name)
  }

  lemma CutReplayOfKept(users: set<string>, log: seq<Message>, name: string, k: nat)
    requires IsKept(log, name) && k <= |log|
    ensures Replayed(Replayed(users, log[..k]), log) == Replayed(users, log)
    ensures IsKept(log[..k], name)
  {
    hide Replayed;
    assert forall m | m in log[..k] :: m in log;
    if AllMembership(log) {
      CutReplayIsHarmless(users, log, k);
    } else {
      CutReplayOfNickIsHarmless(users, log, name, k);
    }
  }

  /** Interrupted replays are harmless: whatever a log is of, whatever is logged, and however
      often replays break off in between, one complete replay at the end finds the users
      that a single replay of everything would have. */
  lemma {:induction false} InterruptionsAreHarmless(users: set<string>, hs: seq<Happening>, name: string)
    requires IsKept(LoggedIn(hs), name)
    ensures var r := After(Record(users, []), hs);
            r.log == LoggedIn(hs) && Replayed(r.users, r.log) == Replayed(users, LoggedIn(hs))
  {
    hide IsKept;
    if hs != [] {
      var init := hs[..|hs| - 1];
      assert LoggedIn(init) == LoggedIn(hs)[..|LoggedIn(init)|];
      CutReplayOfKept(users, LoggedIn(hs), name, |LoggedIn(init)|);
      InterruptionsAreHarmless(users, init, name);
      var before := After(Record(users, []), init);
      match hs[|hs| - 1]
      case Logged(m) =>
        assert (before.log + [m])[..|before.log|] == before.log;
      case CutOff(sent) =>
        if sent <= |before.log| { CutReplayOfKept(before.users, before.log, name, sent); }
    }
  }
}

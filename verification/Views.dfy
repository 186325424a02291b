/** The state of an IRC session as values, and what one message does to it. The classes of
    `Sessions` are proved to compute these functions in place. */
module Views {
  import opened Text
  import opened Messages
  import opened ClientIds

  // ---- The handshake --------------------------------------------------------------

  datatype Flags = Flags(haveNick: bool, haveUser: bool, haveMotd: bool)
  {
    predicate Done() { haveNick && haveUser && haveMotd }

    predicate WantsWelcome() { haveNick && haveUser && !haveMotd }
  }

  const NO_FLAGS := Flags(false, false, false)

  predicate RejectsNick(c: Command)
  {
    || c.ErrNonicknamegiven? || c.ErrErroneusnickname?
    || c.ErrNicknameinuse? || c.ErrNickcollision?
  }

  predicate EndsMotd(c: Command) { c.RplEndofmotd? || c.ErrNomotd? }

  function FlagsFromClient(f: Flags, m: Message): Flags
  {
    if f.Done() then f
    else if m.command == User then f.(haveUser := true)
    else if m.command == Nick then f.(haveNick := true)
    else f
  }

  function FlagsFromServer(f: Flags, m: Message): Flags
  {
    if f.Done() then f
    else if RejectsNick(m.command) then f.(haveNick := false)
    else if EndsMotd(m.command) then f.(haveMotd := true)
    else f
  }

  // ---- The handshake by its history ----------------------------------------------------

  /** What is said in a handshake, by either side. */
  datatype Said = ByClient(message: Message) | ByServer(message: Message)

  function FlagsAfterAll(f: Flags, history: seq<Said>): Flags
  {
    if history == [] then f
    else
      var before := FlagsAfterAll(f, history[..|history| - 1]);
      match history[|history| - 1]
      case ByClient(m) => FlagsFromClient(before, m)
      case ByServer(m) => FlagsFromServer(before, m)
  }

  lemma {:induction false} FlagsInParts(f: Flags, history: seq<Said>, more: seq<Said>)
    ensures FlagsAfterAll(f, history + more) == FlagsAfterAll(FlagsAfterAll(f, history), more)
  {
    if more == [] {
      assert history + more == history;
    } else {
      FlagsInParts(f, history, more[..|more| - 1]);
      assert (history + more)[..|history + more| - 1] == history + more[..|more| - 1];
    }
  }

  predicate GivesUser(x: Said) { x.ByClient? && x.message.command == User }

  predicate GivesNick(x: Said) { x.ByClient? && x.message.command == Nick }

  predicate RefusesNick(x: Said)
  {
    x.ByServer? && x.message.command in
    {ErrNonicknamegiven, ErrErroneusnickname, ErrNicknameinuse, ErrNickcollision}
  }

  predicate EndsWelcome(x: Said) { x.ByServer? && x.message.command in {RplEndofmotd, ErrNomotd} }

  /** A user was given, a nick that was not refused afterwards, and the message of the day
      came to its end. */
  ghost predicate IsComplete(history: seq<Said>)
  {
    HasUser(history) && HasNick(history) && HasEnd(history)
  }

  ghost predicate HasUser(history: seq<Said>) { exists x | x in history :: GivesUser(x) }

  ghost predicate HasEnd(history: seq<Said>) { exists x | x in history :: EndsWelcome(x) }

  ghost predicate HasNick(history: seq<Said>)
  {
    exists i | 0 <= i < |history| ::
      GivesNick(history[i]) && forall j | i < j < |history| :: !RefusesNick(history[j])
  }

  lemma OneMoreSaid(history: seq<Said>, x: Said)
    ensures HasUser(history + [x]) <==> HasUser(history) || GivesUser(x)
    ensures HasEnd(history + [x]) <==> HasEnd(history) || EndsWelcome(x)
  {
    assert x in history + [x] && forall y | y in history :: y in history + [x];
  }

  lemma OneMoreNick(history: seq<Said>, x: Said)
    ensures HasNick(history + [x]) <==> GivesNick(x) || (HasNick(history) && !RefusesNick(x))
  {
    var more := history + [x];
    var n := |history|;
    assert more[n] == x;
    if HasNick(history) && !RefusesNick(x) {
      var i :| 0 <= i < n && GivesNick(history[i]) && forall j | i < j < n :: !RefusesNick(history[j]);
      assert GivesNick(more[i]) && forall j | i < j <= n :: !RefusesNick(more[j]);
    }
    if HasNick(more) {
      var i :| 0 <= i <= n && GivesNick(more[i]) && forall j | i < j <= n :: !RefusesNick(more[j]);
      if i < n {
        assert GivesNick(history[i]);
        forall j | i < j < n ensures !RefusesNick(history[j]) { assert !RefusesNick(more[j]); }
      }
    }
  }

  /** Until the handshake is done, its flags say exactly what has happened in it. */
  lemma {:induction false} FlagsByHistory(history: seq<Said>)
    ensures var f := FlagsAfterAll(NO_FLAGS, history);
            f.Done() ||
            (&& (f.haveUser <==> HasUser(history))
             && (f.haveNick <==> HasNick(history))
             && (f.haveMotd <==> HasEnd(history)))
  {
    hide HasUser, HasNick, HasEnd;
    if history == [] {
      NothingYet();
    } else {
      var init, x := history[..|history| - 1], history[|history| - 1];
      FlagsByHistory(init);
      OneMoreSaid(init, x);
      OneMoreNick(init, x);
      assert history == init + [x];
    }
  }

  lemma NothingYet()
    ensures !HasUser([]) && !HasNick([]) && !HasEnd([]) && !IsComplete([])
  {
  }

  /** The handshake is done exactly if at some moment all of it was complete. */
  lemma {:induction false} DoneByHistory(history: seq<Said>)
    ensures FlagsAfterAll(NO_FLAGS, history).Done() <==>
            exists n | 0 <= n <= |history| :: IsComplete(history[..n])
  {
    hide IsComplete;
    assert history[..|history|] == history;
    if history == [] {
      assert !IsComplete(history) by { NothingYet(); }
    } else {
      var init := history[..|history| - 1];
      DoneByHistory(init);
      assert forall n | 0 <= n <= |init| :: init[..n] == history[..n];
      if !FlagsAfterAll(NO_FLAGS, init).Done() { LastToComplete(history); }
    }
  }

  lemma LastToComplete(history: seq<Said>)
    requires history != [] && !FlagsAfterAll(NO_FLAGS, history[..|history| - 1]).Done()
    ensures FlagsAfterAll(NO_FLAGS, history).Done() <==> IsComplete(history)
  {
    hide HasUser, HasNick, HasEnd, FlagsAfterAll;
    var init, x := history[..|history| - 1], history[|history| - 1];
    FlagsByHistory(init);
    OneMoreSaid(init, x);
    OneMoreNick(init, x);
    LastSays(history);
    assert history == init + [x];
  }

  lemma LastSays(history: seq<Said>)
    requires history != []
    ensures var before := FlagsAfterAll(NO_FLAGS, history[..|history| - 1]);
            FlagsAfterAll(NO_FLAGS, history) ==
            match history[|history| - 1]
            case ByClient(m) => FlagsFromClient(before, m)
            case ByServer(m) => FlagsFromServer(before, m)
  {
  }

  // ---- One channel ----------------------------------------------------------------

  datatype ChannelView = ChannelView(topic: string, users: set<string>)

  const NEW_CHANNEL := ChannelView("", {})

  /** The nick one token of a NAMES reply adds; "" for a token that does not parse. */
  function TokenNick(token: string): string
  {
    match NickOf(Trim(token))
    case Some(nick) => nick
    case None => ""
  }

  /** The nicks a NAMES reply adds. */
  function NamesIn(text: string): set<string>
  {
    NicksOf(Split(text, ' '))
  }

  function NicksOf(tokens: seq<string>): set<string>
  {
    set token | token in tokens :: TokenNick(token)
  }

  lemma NicksOfMore(tokens: seq<string>, token: string)
    ensures NicksOf(tokens + [token]) == NicksOf(tokens) + {TokenNick(token)}
  {
    assert forall nick | nick in NicksOf(tokens) + {TokenNick(token)} ::
        exists t :: t in tokens + [token] && TokenNick(t) == nick by {
      assert token in tokens + [token];
      assert forall t | t in tokens :: t in tokens + [token];
    }
  }

  /** The users of a channel after a message about it. A KICK removes its sender. */
  function UsersAfter(users: set<string>, m: Message): set<string>
  {
    match m.command
    case Join =>
      (match NickOf(m.prefix) case Some(nick) => users + {nick} case None => users)
    case Part | Kick | Quit =>
      (match NickOf(m.prefix) case Some(nick) => users - {nick} case None => users)
    case RplNamereply => users + NamesIn(m.Param(3))
    case Nick =>
      (match NickOf(m.prefix)
       case Some(nick) => if nick in users then users - {nick} + {m.Param(0)} else users
       case None => users)
    case _ => users
  }

  function ChannelAfter(ch: ChannelView, m: Message): ChannelView
  {
    ch.(users := UsersAfter(ch.users, m))
  }

  // ---- All channels of a session ----------------------------------------------------

  type ChannelViews = map<string, ChannelView>

  /** The channel, a new one if the session does not have it. */
  function ChannelIn(channels: ChannelViews, name: string): ChannelView
  {
    if name in channels then channels[name] else NEW_CHANNEL
  }

  function ChannelsAfter(channels: ChannelViews, m: Message): ChannelViews
  {
    match m.command
    case Kick | Part | Join =>
      channels[m.Param(0) := ChannelAfter(ChannelIn(channels, m.Param(0)), m)]
    case RplTopic =>
      channels[m.Param(1) := ChannelIn(channels, m.Param(1)).(topic := m.Param(2))]
    case RplNamereply =>
      channels[m.Param(2) := ChannelAfter(ChannelIn(channels, m.Param(2)), m)]
    case Nick | Quit => map c | c in channels :: ChannelAfter(channels[c], m)
    case _ => channels
  }

  // ---- A session --------------------------------------------------------------------

  datatype SessionView = SessionView(id: ClientId, flags: Flags, channels: ChannelViews)

  const NEW_SESSION := SessionView(NOBODY, NO_FLAGS, map[])

  predicate IsMe(s: SessionView, prefix: string)
  {
    NickOf(prefix) == Some(s.id.nick)
  }

  function SessionFromClient(s: SessionView, m: Message): SessionView
  {
    s.(flags := FlagsFromClient(s.flags, m))
  }

  /** What our own message does beyond what everybody's does. */
  function SelfAfter(t: SessionView, m: Message): SessionView
  {
    if m.command.Kick? || m.command.Part? then t.(channels := t.channels - {m.Param(0)})
    else if m.command.Nick? then t.(id := t.id.(nick := m.Param(0)))
    else t
  }

  function SessionFromServer(s: SessionView, m: Message): SessionView
  {
    var t := s.(flags := FlagsFromServer(s.flags, m), channels := ChannelsAfter(s.channels, m));
    if IsMe(s, m.prefix) then SelfAfter(t, m) else t
  }

  /** Who we are after a message. */
  function IdAfter(id: ClientId, m: Message): ClientId
  {
    if m.command.Nick? && NickOf(m.prefix) == Some(id.nick) then id.(nick := m.Param(0)) else id
  }

  lemma IdFollows(s: SessionView, m: Message)
    ensures SessionFromServer(s, m).id == IdAfter(s.id, m)
  {
    hide NickOf, ChannelsAfter;
  }

  lemma DoneStays(s: SessionView, m: Message)
    ensures s.flags.Done() ==> SessionFromServer(s, m).flags.Done() && SessionFromClient(s, m).flags.Done()
  {
    hide ChannelsAfter;
  }

  // ---- One channel of a session --------------------------------------------------------

  function UsersIn(s: SessionView, name: string): set<string>
  {
    ChannelIn(s.channels, name).users
  }

  /** The message is about channel `name` alone. */
  predicate IsAbout(m: Message, name: string)
  {
    match m.command
    case Kick | Part | Join => m.Param(0) == name
    case RplTopic => m.Param(1) == name
    case RplNamereply => m.Param(2) == name
    case _ => false
  }

  /** The message changes the users of every channel its sender is in. */
  predicate IsEverywhere(m: Message) { m.command.Nick? || m.command.Quit? }

  /** A departure from channel `name` of the one who goes by `id`. */
  predicate Departs(id: ClientId, m: Message, name: string)
  {
    (m.command.Kick? || m.command.Part?) && m.Param(0) == name && NickOf(m.prefix) == Some(id.nick)
  }

  /** `m` takes the session out of channel `name`. */
  predicate Leaves(s: SessionView, m: Message, name: string) { Departs(s.id, m, name) }

  /** Channel `name`, once the session is in it, after a message. */
  function OneChannelAfter(ch: ChannelView, m: Message, name: string): ChannelView
  {
    if m.command == RplTopic && IsAbout(m, name) then ch.(topic := m.Param(2))
    else if IsAbout(m, name) || IsEverywhere(m) then ChannelAfter(ch, m)
    else ch
  }

  /** What one message does to one channel of a session: the rest of the session plays no
      part beyond saying whether we are leaving. */
  lemma OneChannel(s: SessionView, m: Message, name: string)
    ensures var t := SessionFromServer(s, m);
            (name in t.channels <==> !Leaves(s, m, name) && (name in s.channels || IsAbout(m, name)))
    ensures var t := SessionFromServer(s, m);
            name in t.channels ==>
              t.channels[name] == OneChannelAfter(ChannelIn(s.channels, name), m, name)
  {
    hide NickOf, FlagsFromServer, NamesIn;
  }

  // ---- Who a KICK takes out -------------------------------------------------------------

  /** A KICK takes the user it names out of the channel exactly when that user is its own
      sender, or when neither of them is in the channel to begin with. */
  lemma KickTakesVictim(users: set<string>, m: Message)
    requires m.command.Kick?
    ensures var victim := m.Param(1);
            UsersAfter(users, m) == users - {victim} <==>
            match NickOf(m.prefix)
            case Some(kicker) => kicker == victim || (kicker !in users && victim !in users)
            case None => victim !in users
  {
    var victim := m.Param(1);
    assert victim !in users - {victim};
    match NickOf(m.prefix)
    case Some(kicker) =>
      assert kicker !in users - {kicker};
      if kicker != victim && kicker in users { assert kicker in users - {victim}; }
      if kicker != victim && victim in users { assert victim in users - {kicker}; }
    case None =>
  }

  /** The session leaves a channel with the KICK that takes it out, and only with that one,
      exactly when the message comes from us and names us, or neither. */
  lemma KickLeavesChannel(s: SessionView, m: Message)
    requires m.command.Kick? && m.Param(0) in s.channels
    ensures (m.Param(0) !in SessionFromServer(s, m).channels <==> m.Param(1) == s.id.nick) <==>
            (IsMe(s, m.prefix) <==> m.Param(1) == s.id.nick)
  {
    OneChannel(s, m, m.Param(0));
  }

  lemma PlainNick(nick: string)
    requires WellFormed(ClientId("", nick, "", ""))
    ensures NickOf(nick) == Some(nick)
  {
    assert "" + nick == nick;
    PrintedParsesBack(ClientId("", nick, "", ""));
  }

  /** When "op" kicks "bob", it is "op" who is taken out; a session of "op" loses the channel
      it is still in, and a session of "bob" keeps the one it was kicked from. */
  lemma KickOfAnother(op: SessionView, bob: SessionView)
    requires op.id.nick == "op" && bob.id.nick == "bob" && "#c" in op.channels && "#c" in bob.channels
    ensures var m := Message("op", Kick, ["#c", "bob"]);
            && UsersAfter({"op", "bob"}, m) == {"bob"}
            && "#c" !in SessionFromServer(op, m).channels
            && "#c" in SessionFromServer(bob, m).channels
  {
    hide SessionFromServer, NickOf;
    var m := Message("op", Kick, ["#c", "bob"]);
    PlainNick("op");
    OneChannel(op, m, "#c");
    OneChannel(bob, m, "#c");
    assert "op"[0] != "bob"[0];
    assert {"op", "bob"} - {"op"} == {"bob"};
  }

  // ---- Our own nick is in every channel we hold ----------------------------------------

  ghost predicate SelfListed(s: SessionView)
  {
    forall name | name in s.channels :: s.id.nick in s.channels[name].users
  }

  /** A channel we do not hold is mentioned only by our own JOIN (or our own, immediately
      undone, departure, or names that include us), and our own QUIT does not come. */
  predicate KeepsSelf(s: SessionView, m: Message)
  {
    match m.command
    case Join | Kick | Part => m.Param(0) in s.channels || IsMe(s, m.prefix)
    case RplTopic => m.Param(1) in s.channels
    case RplNamereply => m.Param(2) in s.channels || s.id.nick in NamesIn(m.Param(3))
    case Quit => !IsMe(s, m.prefix) || s.channels == map[]
    case _ => true
  }

  /** One message keeps our nick listed exactly when it is one of `KeepsSelf`; renames,
      ours included, always do. */
  lemma SelfListedStep(s: SessionView, m: Message)
    requires SelfListed(s)
    ensures SelfListed(SessionFromServer(s, m)) <==> KeepsSelf(s, m)
  {
    var t := SessionFromServer(s, m);
    forall name | name in t.channels
      ensures KeepsSelf(s, m) ==> t.id.nick in t.channels[name].users
    {
      OneChannel(s, m, name);
    }
    if !KeepsSelf(s, m) {
      if m.command == Quit {
        var name :| name in s.channels;
        assert t.id.nick !in t.channels[name].users;
      } else {
        var name := if m.command == RplTopic then m.Param(1)
                    else if m.command == RplNamereply then m.Param(2) else m.Param(0);
        assert name in t.channels && name !in s.channels;
      }
    }
  }

  function AfterAll(s: SessionView, ms: seq<Message>): SessionView
    decreases |ms|
  {
    if ms == [] then s else AfterAll(SessionFromServer(s, ms[0]), ms[1..])
  }

  predicate AllKeepSelf(s: SessionView, ms: seq<Message>)
    decreases |ms|
  {
    ms == [] || (KeepsSelf(s, ms[0]) && AllKeepSelf(SessionFromServer(s, ms[0]), ms[1..]))
  }

  /** Self-membership over any run of messages. */
  lemma {:induction false} SelfStaysListed(s: SessionView, ms: seq<Message>)
    requires SelfListed(s) && AllKeepSelf(s, ms)
    ensures SelfListed(AfterAll(s, ms))
    decreases |ms|
  {
    if ms != [] {
      SelfListedStep(s, ms[0]);
      SelfStaysListed(SessionFromServer(s, ms[0]), ms[1..]);
    }
  }

  // ---- One channel by its history --------------------------------------------------------

  /** None of the messages takes us out of the channel. */
  predicate AllStay(s: SessionView, ms: seq<Message>, name: string)
    decreases |ms|
  {
    ms == [] || (!Leaves(s, ms[0], name) && AllStay(SessionFromServer(s, ms[0]), ms[1..], name))
  }

  /** The message says that `nick` is in the channel. */
  predicate SaysIn(m: Message, name: string, nick: string)
  {
    || (m.command.Join? && m.Param(0) == name && NickOf(m.prefix) == Some(nick))
    || (m.command.RplNamereply? && m.Param(2) == name && nick in NamesIn(m.Param(3)))
  }

  /** The message says that `nick` is not, or not any more. */
  predicate SaysOut(m: Message, name: string, nick: string)
  {
    NickOf(m.prefix) == Some(nick)
    && (m.command.Quit? || ((m.command.Part? || m.command.Kick?) && m.Param(0) == name))
  }

  function LastSaid(ms: seq<Message>, name: string, nick: string): Option<bool>
    decreases |ms|
  {
    if ms == [] then None
    else
      match LastSaid(ms[1..], name, nick)
      case Some(there) => Some(there)
      case None =>
        if SaysIn(ms[0], name, nick) then Some(true)
        else if SaysOut(ms[0], name, nick) then Some(false) else None
  }

  /** Nobody is renamed to `nick`, or from it. */
  predicate NotRenamed(ms: seq<Message>, nick: string)
  {
    forall m | m in ms :: m.command.Nick? ==> m.Param(0) != nick && NickOf(m.prefix) != Some(nick)
  }

  /** After any messages, a user is in a channel we stay in exactly if the last message that says
      anything about it says so, or none does and it was there before. */
  lemma {:induction false} UserByLastWord(s: SessionView, ms: seq<Message>, name: string, nick: string)
    requires AllStay(s, ms, name) && NotRenamed(ms, nick)
    ensures nick in UsersIn(AfterAll(s, ms), name) <==>
            match LastSaid(ms, name, nick) case Some(there) => there case None => nick in UsersIn(s, name)
    decreases |ms|
  {
    hide SessionFromServer, NickOf, NamesIn;
    if ms != [] {
      assert ms[0] in ms && forall m | m in ms[1..] :: m in ms;
      UserByLastWord(SessionFromServer(s, ms[0]), ms[1..], name, nick);
      OneChannel(s, ms[0], name);
    }
  }

  /** A rename carries whoever it is of along, in every channel. */
  lemma RenameCarries(s: SessionView, m: Message, name: string, nick: string)
    requires m.command.Nick?
    ensures nick in UsersIn(SessionFromServer(s, m), name) <==>
            match NickOf(m.prefix)
            case None => nick in UsersIn(s, name)
            case Some(was) =>
              if was in UsersIn(s, name)
              then nick == m.Param(0) || (nick != was && nick in UsersIn(s, name))
              else nick in UsersIn(s, name)
  {
    hide NickOf;
    OneChannel(s, m, name);
  }

  function LastTopic(ms: seq<Message>, name: string): Option<string>
    decreases |ms|
  {
    if ms == [] then None
    else
      match LastTopic(ms[1..], name)
      case Some(topic) => Some(topic)
      case None => if ms[0].command.RplTopic? && ms[0].Param(1) == name then Some(ms[0].Param(2)) else None
  }

  /** And its topic is the last it was said to be. */
  lemma {:induction false} TopicByLastWord(s: SessionView, ms: seq<Message>, name: string)
    requires AllStay(s, ms, name)
    ensures ChannelIn(AfterAll(s, ms).channels, name).topic ==
            match LastTopic(ms, name) case Some(topic) => topic case None => ChannelIn(s.channels, name).topic
    decreases |ms|
  {
    hide SessionFromServer, NickOf, NamesIn;
    if ms != [] {
      TopicByLastWord(SessionFromServer(s, ms[0]), ms[1..], name);
      OneChannel(s, ms[0], name);
    }
  }
}

/** Runs of the proxy on which the reconstruction of a channel's users fails, one for each way
    that `Exceptions` describes. All writes succeed on them. We are "al". */
module Scenarios {
  import opened Text
  import opened Messages
  import opened ClientIds
  import opened Views
  import opened Logs
  import opened Machine
  import opened Safety
  import opened Membership
  import opened Reconstruction
  import opened Nicks
  import opened Exceptions
  import opened Rejoining

  const ENV := Env(_ => true, 60)

  // ---- What a run can lead to -----------------------------------------------------------

  /** Some run from an empty store ends in `s`. */
  ghost predicate Reachable(s: State)
  {
    exists states: seq<State>, events: seq<Event> ::
      IsRun(ENV, states, events) && states[0] == Initial(map[]) && states[|events|] == s
  }

  lemma Begins()
    ensures Reachable(Initial(map[]))
  {
    assert IsRun(ENV, [Initial(map[])], []);
  }

  lemma Continues(s: State, e: Event)
    requires Reachable(s) && Enabled(s, e)
    ensures Reachable(Step(ENV, s, e))
  {
    hide Step, Enabled;
    var states: seq<State>, events: seq<Event> :|
      IsRun(ENV, states, events) && states[0] == Initial(map[]) && states[|events|] == s;
    assert IsRun(ENV, states + [Step(ENV, s, e)], events + [e]);
  }

  lemma ReachableIsSafe(s: State)
    requires Reachable(s)
    ensures Safe(s)
  {
    hide Step, Enabled, Safe;
    var states: seq<State>, events: seq<Event> :|
      IsRun(ENV, states, events) && states[0] == Initial(map[]) && states[|events|] == s;
    RunsAreSafe(ENV, states, events, map[], |events|);
  }

  /** What matters of a state here: the sessions of the open connections, the channels from
      before the log, the log, and whether the welcome is cached. */
  datatype Look = Look(
    client: Option<SessionView>, server: Option<SessionView>, preLog: ChannelViews, logs: Log, haveCache: bool)

  function LookOf(s: State): Look
  {
    Look(if s.client.open then Some(s.client.session) else None,
         if s.server.open then Some(s.server.session) else None,
         s.preLog.channels, s.logs, s.haveCache)
  }

  // ---- The steps of the story --------------------------------------------------------------

  const AL := ClientId("", "al", "", "")
  const HALFWAY := Flags(false, true, false)
  const NAMED := Flags(true, true, false)
  const DONE := Flags(true, true, true)

  const DIAL := NewClient(true, 0, 0)
  const USER := ClientMessage(Message("", User, ["al", "0", "*", "al"]), [], 0)
  const NICK := ClientMessage(Message("", Nick, ["al"]), [], 0)
  const WELCOME := ServerMessage(Message("irc", RplWelcome, ["al", "al"]), 0)
  const MYINFO := ServerMessage(Message("irc", RplMyinfo, ["al", "irc", "1", "o", "o"]), 0)
  const MOTD_ENDS := ServerMessage(Message("irc", RplEndofmotd, ["al", "End"]), 0)

  function Moves(nick: string, command: Command): Message { Message(nick, command, ["#c"]) }

  lemma Dialled(s: State)
    requires !s.client.open && !s.server.open
    ensures LookOf(Step(ENV, s, DIAL)) ==
            LookOf(s).(client := Some(NEW_SESSION), server := Some(NEW_SESSION))
    ensures Enabled(s, DIAL)
  {
  }

  lemma DialledAgain(s: State)
    requires !s.client.open && s.server.open && s.server.session.flags.Done()
    ensures LookOf(Step(ENV, s, DIAL)) == LookOf(s).(client := Some(NEW_SESSION))
    ensures Enabled(s, DIAL)
  {
  }

  lemma UserGiven(s: State)
    requires LookOf(s).client == Some(NEW_SESSION) && LookOf(s).server == Some(NEW_SESSION)
    ensures var after := Some(NEW_SESSION.(flags := HALFWAY));
            LookOf(Step(ENV, s, USER)) == LookOf(s).(client := after, server := after)
    ensures Enabled(s, USER)
  {
  }

  lemma NickGiven(s: State)
    requires LookOf(s).client == LookOf(s).server == Some(NEW_SESSION.(flags := HALFWAY))
    ensures var after := Some(NEW_SESSION.(flags := NAMED));
            LookOf(Step(ENV, s, NICK)) == LookOf(s).(client := after, server := after)
    ensures Enabled(s, NICK)
  {
  }

  lemma AlIsParsed()
    ensures Parse(LastWord("al")) == Some(AL)
  {
    hide Parse;
    SplitWhole("al", ' ');
    assert LastWord("al") == "al";
    assert "" + "al" == "al" && Print(AL) == "al";
    PrintedParsesBack(AL);
  }

  lemma Welcomed(s: State)
    requires LookOf(s).client == LookOf(s).server == Some(NEW_SESSION.(flags := NAMED))
    ensures var after := Some(SessionView(AL, NAMED, map[]));
            LookOf(Step(ENV, s, WELCOME)) == LookOf(s).(client := after, server := after)
    ensures Enabled(s, WELCOME)
  {
    hide Parse, LastWord, NickOf;
    AlIsParsed();
  }

  /** What is only shown, and leaves the sessions as they are. */
  predicate IsShow(m: Message)
  {
    m.command.RplWelcome? || m.command.RplYourhost? || m.command.RplCreated? || m.command.RplMyinfo?
  }

  lemma ShowChangesNothing(s: SessionView, m: Message)
    requires IsShow(m)
    ensures SessionFromServer(s, m) == s
  {
    hide NickOf;
  }

  lemma Cached(s: State)
    requires LookOf(s).client == LookOf(s).server == Some(SessionView(AL, NAMED, map[]))
    ensures LookOf(Step(ENV, s, MYINFO)) == LookOf(s).(haveCache := true)
    ensures Enabled(s, MYINFO)
  {
    hide SessionFromServer;
    ShowChangesNothing(s.client.session, MYINFO.message);
    ShowChangesNothing(s.server.session, MYINFO.message);
    ShowChangesNothing(s.preLog, MYINFO.message);
  }

  lemma MotdEnds(s: SessionView)
    ensures SessionFromServer(s, MOTD_ENDS.message) ==
            s.(flags := FlagsFromServer(s.flags, MOTD_ENDS.message))
  {
    hide NickOf;
  }

  /** The end of the server's welcome; nothing is logged for "al". */
  lemma Registered(s: State, flags: Flags, channels: ChannelViews)
    requires LookOf(s).client == Some(SessionView(AL, NAMED, map[]))
    requires LookOf(s).server == Some(SessionView(AL, flags, channels)) && flags in {NAMED, DONE}
    requires "al" !in s.logs
    ensures LookOf(Step(ENV, s, MOTD_ENDS)) ==
            LookOf(s).(client := Some(SessionView(AL, DONE, map[])), server := Some(SessionView(AL, DONE, channels)))
    ensures Enabled(s, MOTD_ENDS)
  {
    hide SessionFromServer, SendClient, Replay, HandleReply;
    var m := MOTD_ENDS.message;
    var s' := Track(s.(server := Renewed(ENV, s.server, 0)), m);
    MotdEnds(s.client.session);
    MotdEnds(s.server.session);
    MotdEnds(s.preLog);
    Sent(ENV, s', m);
    MotdEndHandled(s');
    NothingKept(SendClient(ENV, s', m).0, "al");
  }

  lemma MotdEndHandled(s: State)
    ensures var t := SendClient(ENV, s, MOTD_ENDS.message).0;
            HandleReply(ENV, s, MOTD_ENDS.message) == Replay(ENV, t, t.client.session.id.nick)
  {
    hide SendClient, Replay;
  }

  lemma NothingKept(s: State, name: string)
    requires name !in s.logs
    ensures Replay(ENV, s, name) == s
  {
    assert s.logs - {name} == s.logs;
  }

  // ---- Coming back --------------------------------------------------------------------------

  lemma UserGivenAgain(s: State)
    requires LookOf(s).client == Some(NEW_SESSION) && s.server.open && s.server.session.flags == DONE
    ensures LookOf(Step(ENV, s, USER)) == LookOf(s).(client := Some(NEW_SESSION.(flags := HALFWAY)))
    ensures Enabled(s, USER)
  {
  }

  lemma {:induction false} Shown(s: State, ms: seq<Message>)
    requires s.client.open && forall m | m in ms :: IsShow(m)
    ensures var (t, ok) := SendAll(ENV, s, ms); ok && LookOf(t) == LookOf(s) && t.server == s.server
    decreases |ms|
  {
    hide SendClient, SessionFromServer;
    if ms != [] {
      assert ms[0] in ms && forall m | m in ms[1..] :: m in ms;
      Sent(ENV, s, ms[0]);
      ShowChangesNothing(s.client.session, ms[0]);
      ShowChangesNothing(s.preLog, ms[0]);
      Shown(SendClient(ENV, s, ms[0]).0, ms[1..]);
    }
  }

  lemma WelcomeIsShow(s: State)
    ensures forall m | m in WelcomeMessages(s) :: IsShow(m)
  {
  }

  lemma WelcomedBack(s: State)
    requires s.client.open && s.server.open && s.server.session.flags == DONE && s.haveCache
    ensures LookOf(WelcomeBack(ENV, s)) ==
            LookOf(s).(client := Some(s.client.session.(id := s.server.session.id)))
  {
    hide SendAll, WelcomeMessages;
    WelcomeIsShow(s);
    Shown(s, WelcomeMessages(s));
  }

  lemma NickGivenAgain(s: State, channels: ChannelViews)
    requires LookOf(s).client == Some(NEW_SESSION.(flags := HALFWAY)) && s.haveCache
    requires LookOf(s).server == Some(SessionView(AL, DONE, channels))
    ensures LookOf(Step(ENV, s, NICK)) == LookOf(s).(client := Some(SessionView(AL, NAMED, map[])))
    ensures Enabled(s, NICK)
  {
    hide WelcomeBack;
    var s' := s.(client := Renewed(ENV, s.client, 0));
    var t := s'.(client := s'.client.(session := SessionFromClient(s'.client.session, NICK.message)));
    WelcomedBack(t);
  }

  // ---- In the channel ------------------------------------------------------------------------

  function Room(users: set<string>): ChannelViews { map["#c" := ChannelView("", users)] }

  lemma EntersRoom(s: SessionView)
    requires s.channels == map[]
    ensures SessionFromServer(s, Moves("al", Join)) == s.(channels := Room({"al"}))
  {
    hide NickOf;
    PlainNick("al");
    assert {} + {"al"} == {"al"};
    assert ChannelsAfter(map[], Moves("al", Join)) == Room({"al"});
  }

  lemma Joined(s: State)
    requires LookOf(s).client == LookOf(s).server == Some(SessionView(AL, DONE, map[]))
    requires s.preLog.id == NOBODY && s.preLog.channels == map[]
    ensures var after, e := Some(SessionView(AL, DONE, Room({"al"}))), ServerMessage(Moves("al", Join), 0);
            && LookOf(Step(ENV, s, e)) == LookOf(s).(client := after, server := after, preLog := Room({"al"}))
            && Enabled(s, e)
  {
    hide SessionFromServer;
    EntersRoom(s.client.session);
    EntersRoom(s.preLog);
  }

  lemma Away(s: State)
    requires s.client.open && s.server.open && s.server.session.flags == DONE
    ensures LookOf(Step(ENV, s, ClientClosed(0))) == LookOf(s).(client := None)
    ensures Enabled(s, ClientClosed(0))
  {
  }

  lemma Cut(s: State)
    requires s.server.open
    ensures LookOf(Step(ENV, s, ServerClosed(0))) == LookOf(s).(client := None, server := None)
    ensures Enabled(s, ServerClosed(0))
  {
  }

  lemma OthersMove(s: SessionView, m: Message, users: set<string>)
    requires s.channels == Room(users) && !IsMe(s, m.prefix)
    requires m.command in {Join, Part} && m.Param(0) == "#c"
    ensures SessionFromServer(s, m) == s.(channels := Room(UsersAfter(users, m)))
  {
    hide UsersAfter, IsMe;
    assert ChannelsAfter(Room(users), m) == Room(UsersAfter(users, m));
  }

  lemma KeptUnregistered(s: State, m: Message)
    requires !s.client.session.flags.Done() && m.command in {Join, Part}
    ensures HandleReply(ENV, s, m) == s.(logs := Appended(s.logs, m.Param(0), m))
  {
  }

  lemma KeptAway(s: State, m: Message, users: set<string>, nick: string)
    requires LookOf(s).server == Some(SessionView(AL, DONE, Room(users))) && !s.client.open
    requires !s.client.session.flags.Done() && WellFormed(ClientId("", nick, "", "")) && nick != "al"
    requires m == Moves(nick, Join) || m == Moves(nick, Part)
    ensures LookOf(Step(ENV, s, ServerMessage(m, 0))) ==
            LookOf(s).(server := Some(SessionView(AL, DONE, Room(UsersAfter(users, m)))),
                       logs := Appended(s.logs, "#c", m))
    ensures Enabled(s, ServerMessage(m, 0))
  {
    hide NickOf, UsersAfter, WellFormed, SessionFromServer, HandleReply;
    PlainNick(nick);
    KeptUnregistered(Track(s.(server := Renewed(ENV, s.server, 0)), m), m);
    OthersMove(s.server.session, m, users);
  }

  // ---- The story -----------------------------------------------------------------------------

  /** What "al" misses: "bob" comes, "eve" comes and goes. */
  const BOB_COMES := Moves("bob", Join)
  const EVE_COMES := Moves("eve", Join)
  const EVE_GOES := Moves("eve", Part)
  const MISSED := [BOB_COMES, EVE_COMES, EVE_GOES]

  const PRESENT := SessionView(AL, DONE, Room({"al", "bob"}))

  /** "al" was alone in the channel before the log. */
  function AfterMissing(client: Option<SessionView>, server: Option<SessionView>): Look
  {
    Look(client, server, Room({"al"}), map["#c" := MISSED], true)
  }

  lemma Registers() returns (s: State)
    ensures Reachable(s)
    ensures LookOf(s) ==
            Look(Some(SessionView(AL, DONE, map[])), Some(SessionView(AL, DONE, map[])), map[], map[], true)
  {
    hide Step, Enabled, Reachable;
    s := Initial(map[]);
    Begins();
    Dialled(s); Continues(s, DIAL); s := Step(ENV, s, DIAL);
    UserGiven(s); Continues(s, USER); s := Step(ENV, s, USER);
    NickGiven(s); Continues(s, NICK); s := Step(ENV, s, NICK);
    Welcomed(s); Continues(s, WELCOME); s := Step(ENV, s, WELCOME);
    Cached(s); Continues(s, MYINFO); s := Step(ENV, s, MYINFO);
    Registered(s, NAMED, map[]); Continues(s, MOTD_ENDS); s := Step(ENV, s, MOTD_ENDS);
  }

  lemma GoesAway() returns (s: State)
    ensures Reachable(s) && LookOf(s) == AfterMissing(None, Some(PRESENT))
  {
    hide Step, Enabled, Reachable, UsersAfter, NickOf;
    s := JoinsAlone();
    Away(s); Continues(s, ClientClosed(0)); s := Step(ENV, s, ClientClosed(0));
    ReachableIsSafe(s);
    MissedUsers();
    KeptAway(s, BOB_COMES, {"al"}, "bob");
    Continues(s, ServerMessage(BOB_COMES, 0)); s := Step(ENV, s, ServerMessage(BOB_COMES, 0));
    ReachableIsSafe(s);
    KeptAway(s, EVE_COMES, {"al", "bob"}, "eve");
    Continues(s, ServerMessage(EVE_COMES, 0)); s := Step(ENV, s, ServerMessage(EVE_COMES, 0));
    ReachableIsSafe(s);
    KeptAway(s, EVE_GOES, {"al", "bob", "eve"}, "eve");
    Continues(s, ServerMessage(EVE_GOES, 0)); s := Step(ENV, s, ServerMessage(EVE_GOES, 0));
    MissedLog();
  }

  lemma MissedLog()
    ensures Appended(Appended(Appended(map[], "#c", BOB_COMES), "#c", EVE_COMES), "#c", EVE_GOES) ==
            map["#c" := MISSED]
  {
    assert [] + [BOB_COMES] == [BOB_COMES];
    assert Appended(map[], "#c", BOB_COMES) == map["#c" := [BOB_COMES]];
    assert [BOB_COMES] + [EVE_COMES] == [BOB_COMES, EVE_COMES];
    assert Appended(map["#c" := [BOB_COMES]], "#c", EVE_COMES) == map["#c" := [BOB_COMES, EVE_COMES]];
    assert [BOB_COMES, EVE_COMES] + [EVE_GOES] == MISSED;
  }

  lemma Names()
    ensures NickOf("al") == Some("al") && NickOf("bob") == Some("bob") && NickOf("eve") == Some("eve")
    ensures "al" != "bob" && "al" != "eve" && "bob" != "eve"
  {
    hide NickOf;
    PlainNick("al");
    PlainNick("bob");
    PlainNick("eve");
    assert "bob"[0] != "eve"[0];
  }

  /** The server's users along the way, and what the log says. */
  lemma MissedUsers()
    ensures UsersAfter({"al"}, BOB_COMES) == {"al", "bob"}
    ensures UsersAfter({"al", "bob"}, EVE_COMES) == {"al", "bob", "eve"}
    ensures UsersAfter({"al", "bob", "eve"}, EVE_GOES) == {"al", "bob"}
    ensures Replayed({"al"}, MISSED) == {"al", "bob"}
  {
    hide NickOf, Replayed;
    Names();
    assert {"al", "bob", "eve"} - {"eve"} == {"al", "bob"};
    assert {"al"} + {"bob"} == {"al", "bob"};
    ReplayedMore({"al"}, MISSED, 0);
    ReplayedMore({"al"}, MISSED, 1);
    ReplayedMore({"al"}, MISSED, 2);
    assert MISSED[..0] == [] && MISSED[..3] == MISSED;
    assert Replayed({"al"}, []) == {"al"} by { NothingReplayed({"al"}); }
  }

  lemma MissedVerdicts()
    ensures Verdict(MISSED, "bob") == Some(true) && Verdict(MISSED, "eve") == Some(false)
    ensures Verdict(MISSED, "al") == None
  {
    hide NickOf;
    Names();
    var two, one := [BOB_COMES, EVE_COMES], [BOB_COMES];
    assert MISSED[..2] == two && two[..1] == one && one[..0] == [];
    assert Verdict(one, "bob") == Some(true) && Verdict(one, "al") == None;
    assert Verdict(two, "bob") == Some(true) && Verdict(two, "al") == None;
  }

  // ---- The ways to fail ------------------------------------------------------------------------

  /** A run of the proxy comes to `s`, a replay would lead to the users of the channel, and
      after the server's message it would not any more. */
  ghost predicate Breaks(s: State, m: Message)
  {
    && Reachable(s) && Enabled(s, ServerMessage(m, 0))
    && Reconstructible(s, "#c") && !Reconstructible(Step(ENV, s, ServerMessage(m, 0)), "#c")
  }

  lemma StorySyncs(s: State, client: Option<SessionView>)
    requires Reachable(s) && LookOf(s) == AfterMissing(client, Some(PRESENT))
    requires client.Some? ==> client.value.channels == map[]
    ensures Synced(s, "#c") && Reconstructible(s, "#c")
  {
    hide Reachable, Replayed, NoMoves, WellKept;
    ReachableIsSafe(s);
    MissedUsers();
  }

  lemma BreaksIf(s: State, client: Option<SessionView>, m: Message)
    requires Reachable(s) && LookOf(s) == AfterMissing(client, Some(PRESENT))
    requires client.Some? ==> client.value.channels == map[]
    requires BearsOn(s, m, "#c") && !Leaves(PRESENT, m, "#c")
    requires if Overtakes(ENV, s, m) then !Fits({"al"}, MISSED, m)
             else !IsMove(m) && !Idle({"al", "bob"}, m) && !(m.command.Nick? && m.Param(0) == "#c")
    ensures Breaks(s, m)
  {
    hide Reachable, Synced, Fits, Idle, Neutral, HandleServer, Leaves, Reconstructible, IsValid;
    StorySyncs(s, client);
    var s' := s.(server := Renewed(ENV, s.server, 0));
    RenewedSyncs(s);
    if Overtakes(ENV, s, m) {
      LiveBeforeRejoin(ENV, s', m, "#c");
    } else {
      MissedWhileAway(ENV, s', m, "#c");
    }
  }

  lemma RenewedSyncs(s: State)
    requires Synced(s, "#c")
    ensures Synced(s.(server := Renewed(ENV, s.server, 0)), "#c")
  {
    hide Reconstructs, CaughtUp;
  }

  const BOB_QUITS := Message("bob", Quit, [])
  const BOB_RENAMED := Message("bob", Nick, ["dan"])

  function NamesReply(nick: string): Message { Message("irc", RplNamereply, ["al", "=", "#c", nick]) }

  lemma NamesRead(nick: string)
    requires nick in {"eve", "dan"}
    ensures NamesIn(NamesReply(nick).Param(3)) == {nick}
  {
    assert Trim(nick) == nick;
    ReadsBackExactly(nick);
  }

  /** While the client is away a quit, a rename or a name is lost. */
  lemma LostWhileAway() returns (s: State)
    ensures !s.client.open
    ensures Breaks(s, BOB_QUITS) && Breaks(s, BOB_RENAMED) && Breaks(s, NamesReply("dan"))
  {
    hide Breaks, Reachable, NickOf, NamesIn;
    s := GoesAway();
    Names();
    NamesRead("dan");
    assert s.client.session == NEW_SESSION by { ReachableIsSafe(s); }
    BreaksIf(s, None, BOB_QUITS);
    BreaksIf(s, None, BOB_RENAMED);
    BreaksIf(s, None, NamesReply("dan"));
  }

  /** So is a quit or a rename while a client is registering. */
  lemma LostWhileRegistering() returns (s: State)
    ensures s.client.open && !s.client.session.flags.Done()
    ensures Breaks(s, BOB_QUITS) && Breaks(s, BOB_RENAMED)
  {
    hide Breaks, Reachable, NickOf, Step, Enabled;
    s := GoesAway();
    DialledAgain(s); Continues(s, DIAL); s := Step(ENV, s, DIAL);
    Names();
    BreaksIf(s, Some(NEW_SESSION), BOB_QUITS);
    BreaksIf(s, Some(NEW_SESSION), BOB_RENAMED);
  }

  lemma ComesBack() returns (s: State)
    ensures Reachable(s) && LookOf(s) == AfterMissing(Some(SessionView(AL, DONE, map[])), Some(PRESENT))
  {
    hide Reachable, Step, Enabled;
    s := GoesAway();
    DialledAgain(s); Continues(s, DIAL); s := Step(ENV, s, DIAL);
    UserGivenAgain(s); Continues(s, USER); s := Step(ENV, s, USER);
    NickGivenAgain(s, Room({"al", "bob"})); Continues(s, NICK); s := Step(ENV, s, NICK);
    Registered(s, DONE, Room({"al", "bob"})); Continues(s, MOTD_ENDS); s := Step(ENV, s, MOTD_ENDS);
  }

  lemma BackInView(s: State)
    requires LookOf(s) == AfterMissing(Some(SessionView(AL, DONE, map[])), Some(PRESENT))
    ensures s.client.open && s.client.session == SessionView(AL, DONE, map[])
    ensures s.server.open && s.server.session == PRESENT
  {
  }

  /** And a registered client that has yet to rejoin the channel is told too early of anyone
      on whom the log has another last word. */
  lemma ToldTooEarly() returns (s: State)
    ensures s.client.session.flags.Done() && s.client.session.channels == map[]
    ensures Breaks(s, BOB_QUITS) && Breaks(s, Moves("bob", Part)) && Breaks(s, BOB_RENAMED)
    ensures Breaks(s, EVE_COMES) && Breaks(s, NamesReply("eve"))
  {
    hide Breaks, Reachable, LookOf, Step;
    s := ComesBack();
    BackInView(s);
    Contradicted();
    TooEarly(s, BOB_QUITS);
    TooEarly(s, Moves("bob", Part));
    TooEarly(s, BOB_RENAMED);
    TooEarly(s, EVE_COMES);
    TooEarly(s, NamesReply("eve"));
  }

  lemma Contradicted()
    ensures forall m | m in {BOB_QUITS, Moves("bob", Part), BOB_RENAMED, EVE_COMES, NamesReply("eve")} ::
              !Fits({"al"}, MISSED, m)
  {
    hide NickOf, NamesIn, Verdict;
    Names();
    NamesRead("eve");
    MissedVerdicts();
    assert "eve" in NamesIn(NamesReply("eve").Param(3));
  }

  lemma TooEarly(s: State, m: Message)
    requires Reachable(s) && LookOf(s) == AfterMissing(Some(SessionView(AL, DONE, map[])), Some(PRESENT))
    requires m in {BOB_QUITS, Moves("bob", Part), BOB_RENAMED, EVE_COMES, NamesReply("eve")}
    requires !Fits({"al"}, MISSED, m)
    ensures Breaks(s, m)
  {
    hide Breaks, Reachable, NickOf, Fits;
    Names();
    BreaksIf(s, Some(SessionView(AL, DONE, map[])), m);
  }

  /** On a new server connection the log of the old one is still there: nobody but "al" was
      in the channel before it, "al" joins, is alone, and "bob" is replayed to be there. */
  lemma OldLogIsReplayed() returns (s: State)
    ensures Reachable(s) && s.server.session == SessionView(AL, DONE, map[])
    ensures UsersIn(s.preLog, "#c") == {"al"} && s.logs == map["#c" := MISSED]
    ensures var t := Step(ENV, s, ServerMessage(Moves("al", Join), 0));
            && Enabled(s, ServerMessage(Moves("al", Join), 0))
            && !Reconstructible(t, "#c") && UsersIn(t.server.session, "#c") == {"al"}
  {
    hide Reachable, NickOf, Step, Enabled;
    s := GoesAway();
    Cut(s); Continues(s, ServerClosed(0)); s := Step(ENV, s, ServerClosed(0));
    Dialled(s); Continues(s, DIAL); s := Step(ENV, s, DIAL);
    UserGiven(s); Continues(s, USER); s := Step(ENV, s, USER);
    NickGiven(s); Continues(s, NICK); s := Step(ENV, s, NICK);
    Welcomed(s); Continues(s, WELCOME); s := Step(ENV, s, WELCOME);
    Registered(s, NAMED, map[]); Continues(s, MOTD_ENDS); s := Step(ENV, s, MOTD_ENDS);
    ReachableIsSafe(s);
    MissedUsers();
    MissedIsNoRename();
    JoinOnLeftovers(s, {"al"}, MISSED);
  }

  lemma MissedIsNoRename()
    ensures NoRenames(MISSED)
  {
  }

  // ---- A nick that does not read back ------------------------------------------------------------

  /** A user whose nick is "+x", which a prefix can say and a NAMES reply cannot. */
  const PLUS_COMES := Moves("@+x", Join)

  lemma PlusIsRead()
    ensures NickOf("@+x") == Some("+x") && NamesIn("+x") == {"x"}
  {
    hide Parse, Split, WellFormed;
    FlagsRead();
    SplitWhole("+x", ' ');
    NicksOfMore([], "+x");
    assert [] + ["+x"] == ["+x"] && Trim("+x") == "+x";
  }

  lemma FlagsRead()
    ensures Parse("@+x") == Some(ClientId("@", "+x", "", "")) && Parse("+x") == Some(ClientId("+", "x", "", ""))
  {
    hide Parse;
    assert Print(ClientId("@", "+x", "", "")) == "@+x";
    PrintedParsesBack(ClientId("@", "+x", "", ""));
    assert Print(ClientId("+", "x", "", "")) == "+x";
    PrintedParsesBack(ClientId("+", "x", "", ""));
  }

  lemma PlusIsRelayed(s: State)
    requires LookOf(s).client == LookOf(s).server == Some(SessionView(AL, DONE, Room({"al"})))
    requires s.preLog.id == NOBODY && s.preLog.channels == Room({"al"})
    ensures var after, e := Some(SessionView(AL, DONE, Room({"al", "+x"}))), ServerMessage(PLUS_COMES, 0);
            && LookOf(Step(ENV, s, e)) ==
               LookOf(s).(client := after, server := after, preLog := Room({"al", "+x"}))
            && Enabled(s, e)
  {
    hide SessionFromServer, NickOf, NamesIn;
    PlusIsRead();
    OthersMove(s.client.session, PLUS_COMES, {"al"});
    OthersMove(s.preLog, PLUS_COMES, {"al"});
    assert {"al"} + {"+x"} == {"al", "+x"};
    var s' := s.(server := Renewed(ENV, s.server, 0));
    RelayedLive(Track(s', PLUS_COMES), PLUS_COMES);
  }

  lemma RelayedLive(s: State, m: Message)
    requires m.command in {Join, Part} && s.client.open && s.client.session.flags == DONE
    ensures LookOf(HandleReply(ENV, s, m)) ==
            LookOf(s).(client := Some(SessionFromServer(s.client.session, m)),
                       preLog := SessionFromServer(s.preLog, m).channels)
    ensures HandleReply(ENV, s, m).server == s.server
  {
    hide SessionFromServer;
  }

  lemma ComesBackToPlus() returns (s: State)
    ensures Reachable(s)
    ensures LookOf(s) == Look(Some(SessionView(AL, DONE, map[])), Some(SessionView(AL, DONE, Room({"al", "+x"}))),
                              Room({"al", "+x"}), map[], true)
  {
    hide Step, Enabled, Reachable;
    s := JoinsAlone();
    assert s.preLog.id == NOBODY by { ReachableIsSafe(s); }
    PlusIsRelayed(s);
    Continues(s, ServerMessage(PLUS_COMES, 0)); s := Step(ENV, s, ServerMessage(PLUS_COMES, 0));
    Away(s); Continues(s, ClientClosed(0)); s := Step(ENV, s, ClientClosed(0));
    DialledAgain(s); Continues(s, DIAL); s := Step(ENV, s, DIAL);
    UserGivenAgain(s); Continues(s, USER); s := Step(ENV, s, USER);
    NickGivenAgain(s, Room({"al", "+x"})); Continues(s, NICK); s := Step(ENV, s, NICK);
    Registered(s, DONE, Room({"al", "+x"})); Continues(s, MOTD_ENDS); s := Step(ENV, s, MOTD_ENDS);
  }

  lemma {:induction false} NamesGetThrough(s: State, name: string, myNick: string, nicks: seq<string>)
    requires s.client.open
    ensures var (t, ok) := SendNames(ENV, s, name, myNick, nicks); ok && t.client.open
    decreases |nicks|
  {
    hide SendClient;
    if nicks != [] {
      var m := NamesMessage(s.serverPrefix, myNick, name, nicks[0]);
      Sent(ENV, s, m);
      var t := SendClient(ENV, s, m).0;
      assert t.client.open by { ShownIsOpen(s, m); }
      NamesGetThrough(AddClientUser(t, name, nicks[0]), name, myNick, nicks[1..]);
    }
  }

  lemma ShownIsOpen(s: State, m: Message)
    requires s.client.open
    ensures SendClient(ENV, s, m).0.client.open && SendClient(ENV, s, m).1
  {
  }

  /** With nothing logged, a rejoin on which no write fails is survived. */
  lemma RejoinGetsThrough(s: State, name: string, order: seq<string>)
    requires s.client.open && name !in s.logs
    ensures Rejoin(ENV, s, name, order).client.open
  {
    hide SendClient, SendNames, EndOfNamesMessage, JoinMessage, TopicMessage;
    ShownIsOpen(TouchPreLog(s, name), JoinMessage(s, name));
    Sent(ENV, TouchPreLog(s, name), JoinMessage(s, name));
    var t := SendClient(ENV, TouchPreLog(s, name), JoinMessage(s, name)).0;
    ShownIsOpen(t, TopicMessage(t, name));
    Sent(ENV, t, TopicMessage(t, name));
    var u := TouchClient(SendJoin(ENV, s, name).0, name);
    NamesGetThrough(u, name, u.server.session.id.nick, order);
    NamesKeepLogs(u, name, u.server.session.id.nick, order);
    var v := SendNames(ENV, u, name, u.server.session.id.nick, order).0;
    ShownIsOpen(v, EndOfNamesMessage(v, name));
    Sent(ENV, v, EndOfNamesMessage(v, name));
  }

  lemma {:induction false} NamesKeepLogs(s: State, name: string, myNick: string, nicks: seq<string>)
    ensures SendNames(ENV, s, name, myNick, nicks).0.logs == s.logs
    decreases |nicks|
  {
    hide SendClient;
    if nicks != [] {
      var m := NamesMessage(s.serverPrefix, myNick, name, nicks[0]);
      Sent(ENV, s, m);
      NamesKeepLogs(AddClientUser(SendClient(ENV, s, m).0, name, nicks[0]), name, myNick, nicks[1..]);
    }
  }

  /** When "al" comes back to a channel with "+x" in it, and rejoins without a write failing,
      it is shown other users than there are. */
  lemma PlusIsGarbled() returns (s: State)
    ensures Reachable(s) && Synced(s, "#c") && s.client.open
    ensures forall order | Enumerates(order, Roster(s, "#c")) ::
              var t := Rejoin(ENV, s, "#c", order);
              t.client.open && UsersIn(t.client.session, "#c") != UsersIn(t.server.session, "#c")
  {
    hide Reachable, Rejoin, NickOf, NamesIn, Enumerates, Synced;
    s := ComesBackToPlus();
    PlusSyncs(s);
    PlusDoesNotFit(s);
    forall order | Enumerates(order, Roster(s, "#c"))
      ensures var t := Rejoin(ENV, s, "#c", order);
              t.client.open && UsersIn(t.client.session, "#c") != UsersIn(t.server.session, "#c")
    {
      RejoinShowsExactly(ENV, s, "#c", order);
      RejoinGetsThrough(s, "#c", order);
    }
  }

  lemma PlusSyncs(s: State)
    requires Reachable(s) && s.logs == map[] && s.client.session.channels == map[] && s.client.open
    requires s.preLog.channels == s.server.session.channels == Room({"al", "+x"})
    ensures Synced(s, "#c")
  {
    hide Reachable;
    ReachableIsSafe(s);
  }

  lemma PlusDoesNotFit(s: State)
    requires s.logs == map[] && s.preLog.channels == Room({"al", "+x"}) && s.client.session.id == AL
    ensures !ListsFit(s, "#c")
  {
    hide NickOf, NamesIn;
    PlusIsRead();
    Names();
    assert Print(AL) == "al";
    assert "+x" in Roster(s, "#c") && "x" in NamesIn("+x");
    assert Verdict([], "x") == None && "x" !in {"al", "+x"};
  }

  // ---- A JOIN that is ignored ------------------------------------------------------------------

  const EVE_IN_VIEW := SessionView(AL, DONE, Room({"eve"}))
  const AL_JOINS := Message("", Join, ["#c"])

  lemma EveShowsRoom(s: SessionView)
    requires s.channels == map[] && s.id == AL
    ensures SessionFromServer(s, EVE_COMES) == s.(channels := Room({"eve"}))
  {
    hide NickOf;
    Names();
    assert {} + {"eve"} == {"eve"};
    assert ChannelsAfter(map[], EVE_COMES) == Room({"eve"});
  }

  /** "eve" comes while "al" is back, and registered, and has not rejoined. */
  lemma EveIsRelayed(s: State, users: set<string>)
    requires LookOf(s).client == Some(SessionView(AL, DONE, map[]))
    requires LookOf(s).server == Some(SessionView(AL, DONE, Room(users)))
    requires s.preLog.id == NOBODY && s.preLog.channels == Room({"al"})
    ensures var e := ServerMessage(EVE_COMES, 0);
            && LookOf(Step(ENV, s, e)) ==
               LookOf(s).(client := Some(EVE_IN_VIEW),
                          server := Some(SessionView(AL, DONE, Room(users + {"eve"}))),
                          preLog := Room({"al", "eve"}))
            && Enabled(s, e)
  {
    hide SessionFromServer, NickOf;
    Names();
    EveShowsRoom(s.client.session);
    OthersMove(s.server.session, EVE_COMES, users);
    OthersMove(s.preLog, EVE_COMES, {"al"});
    assert {"al"} + {"eve"} == {"al", "eve"};
    var s' := s.(server := Renewed(ENV, s.server, 0));
    RelayedLive(Track(s', EVE_COMES), EVE_COMES);
  }

  /** Nothing happens to the JOIN: no write is tried, and the log stays. */
  lemma IgnoresJoin(s: State, order: seq<string>)
    requires LookOf(s).client == Some(EVE_IN_VIEW)
    ensures var t := Step(ENV, s, ClientMessage(AL_JOINS, order, 0));
            && t.attempts == s.attempts && t.toClient == s.toClient && t.toServer == s.toServer
            && t.logs == s.logs && t.client.session == s.client.session && t.server == s.server
  {
  }

  /** "al" comes back, "eve" comes too, and now al's JOIN is ignored: what it missed stays in
      the log, and of the channel it sees "eve" only. */
  lemma JoinIsIgnored() returns (s: State)
    ensures Reachable(s) && s.client.open && s.client.session.flags.Done() && s.logs == map["#c" := MISSED]
    ensures UsersIn(s.client.session, "#c") == {"eve"} && UsersIn(s.server.session, "#c") == {"al", "bob", "eve"}
    ensures forall order ::
              var t := Step(ENV, s, ClientMessage(AL_JOINS, order, 0));
              && t.toClient == s.toClient && t.toServer == s.toServer && t.logs == s.logs
              && t.client.session == s.client.session
  {
    hide Reachable, NickOf, Step, Enabled;
    s := ComesBack();
    assert s.preLog.id == NOBODY by { ReachableIsSafe(s); }
    EveIsRelayed(s, {"al", "bob"});
    Continues(s, ServerMessage(EVE_COMES, 0)); s := Step(ENV, s, ServerMessage(EVE_COMES, 0));
    assert {"al", "bob"} + {"eve"} == {"al", "bob", "eve"};
    forall order
      ensures var t := Step(ENV, s, ClientMessage(AL_JOINS, order, 0));
              && t.toClient == s.toClient && t.toServer == s.toServer && t.logs == s.logs
              && t.client.session == s.client.session
    {
      IgnoresJoin(s, order);
    }
  }

  /** The same where "al" missed nothing, and the reconstruction is in order all along. */
  lemma JoinIsIgnoredInOrder() returns (s: State)
    ensures Reachable(s) && s.client.open && s.client.session.flags.Done() && Synced(s, "#c")
    ensures UsersIn(s.client.session, "#c") == {"eve"} && UsersIn(s.server.session, "#c") == {"al", "eve"}
    ensures forall order ::
              var t := Step(ENV, s, ClientMessage(AL_JOINS, order, 0));
              t.toClient == s.toClient && t.toServer == s.toServer && t.client.session == s.client.session
  {
    hide Reachable, NickOf, Step, Enabled, Synced;
    s := ComesBackAlone();
    assert s.preLog.id == NOBODY by { ReachableIsSafe(s); }
    EveIsRelayed(s, {"al"});
    Continues(s, ServerMessage(EVE_COMES, 0)); s := Step(ENV, s, ServerMessage(EVE_COMES, 0));
    assert {"al"} + {"eve"} == {"al", "eve"};
    assert s.preLog.id == NOBODY by { ReachableIsSafe(s); }
    EveSyncs(s);
    forall order
      ensures var t := Step(ENV, s, ClientMessage(AL_JOINS, order, 0));
              t.toClient == s.toClient && t.toServer == s.toServer && t.client.session == s.client.session
    {
      IgnoresJoin(s, order);
    }
  }

  lemma EveSyncs(s: State)
    requires s.preLog.id == NOBODY && s.preLog.channels == Room({"al", "eve"}) && s.logs == map[]
    requires LookOf(s).client == Some(EVE_IN_VIEW)
    requires LookOf(s).server == Some(SessionView(AL, DONE, Room({"al", "eve"})))
    ensures Synced(s, "#c")
  {
  }

  lemma ComesBackAlone() returns (s: State)
    ensures Reachable(s)
    ensures LookOf(s) == Look(Some(SessionView(AL, DONE, map[])), Some(SessionView(AL, DONE, Room({"al"}))),
                              Room({"al"}), map[], true)
  {
    hide Step, Enabled, Reachable;
    s := JoinsAlone();
    Away(s); Continues(s, ClientClosed(0)); s := Step(ENV, s, ClientClosed(0));
    DialledAgain(s); Continues(s, DIAL); s := Step(ENV, s, DIAL);
    UserGivenAgain(s); Continues(s, USER); s := Step(ENV, s, USER);
    NickGivenAgain(s, Room({"al"})); Continues(s, NICK); s := Step(ENV, s, NICK);
    Registered(s, DONE, Room({"al"})); Continues(s, MOTD_ENDS); s := Step(ENV, s, MOTD_ENDS);
  }

  lemma JoinsAlone() returns (s: State)
    ensures Reachable(s)
    ensures var al := Some(SessionView(AL, DONE, Room({"al"}))); LookOf(s) == Look(al, al, Room({"al"}), map[], true)
  {
    hide Step, Enabled, Reachable;
    s := Registers();
    assert s.preLog.id == NOBODY by { ReachableIsSafe(s); }
    Joined(s);
    var joins := ServerMessage(Moves("al", Join), 0);
    Continues(s, joins); s := Step(ENV, s, joins);
  }

  // ---- Leaving, and coming again -----------------------------------------------------------------

  lemma AlLeaves(s: SessionView, users: set<string>)
    requires s.channels == Room(users) && s.id == AL
    ensures SessionFromServer(s, Moves("al", Part)) == s.(channels := map[])
  {
    hide NickOf, UsersAfter;
    Names();
    var t := ChannelsAfter(Room(users), Moves("al", Part));
    assert t - {"#c"} == map[];
  }

  lemma AlLeavesFrom(s: State, users: set<string>)
    requires LookOf(s).client == LookOf(s).server == Some(SessionView(AL, DONE, Room(users)))
    requires s.preLog.id == NOBODY && s.preLog.channels == Room(users)
    ensures var after, e := Some(SessionView(AL, DONE, map[])), ServerMessage(Moves("al", Part), 0);
            && LookOf(Step(ENV, s, e)) ==
               LookOf(s).(client := after, server := after, preLog := Room(users - {"al"}))
            && Enabled(s, e)
  {
    hide SessionFromServer, NickOf;
    Names();
    AlLeaves(s.client.session, users);
    AlLeaves(s.server.session, users);
    OthersMove(s.preLog, Moves("al", Part), users);
    var s' := s.(server := Renewed(ENV, s.server, 0));
    RelayedLive(Track(s', Moves("al", Part)), Moves("al", Part));
  }

  lemma BobIsRelayed(s: State)
    requires LookOf(s).client == LookOf(s).server == Some(SessionView(AL, DONE, Room({"al"})))
    requires s.preLog.id == NOBODY && s.preLog.channels == Room({"al"})
    ensures var after, e := Some(SessionView(AL, DONE, Room({"al", "bob"}))), ServerMessage(BOB_COMES, 0);
            && LookOf(Step(ENV, s, e)) ==
               LookOf(s).(client := after, server := after, preLog := Room({"al", "bob"}))
            && Enabled(s, e)
  {
    hide SessionFromServer, NickOf;
    Names();
    OthersMove(s.client.session, BOB_COMES, {"al"});
    OthersMove(s.preLog, BOB_COMES, {"al"});
    assert {"al"} + {"bob"} == {"al", "bob"};
    var s' := s.(server := Renewed(ENV, s.server, 0));
    RelayedLive(Track(s', BOB_COMES), BOB_COMES);
  }

  /** On one and the same connection: "al" leaves, comes again, and "bob", who was there, is
      still known from before. */
  lemma LeftAndCameAgain() returns (s: State)
    ensures Reachable(s) && s.logs == map[] && UsersIn(s.preLog, "#c") == {"bob"}
    ensures s.server.open && s.server.session == SessionView(AL, DONE, map[])
    ensures var t := Step(ENV, s, ServerMessage(Moves("al", Join), 0));
            && Enabled(s, ServerMessage(Moves("al", Join), 0))
            && !Reconstructible(t, "#c") && UsersIn(t.server.session, "#c") == {"al"}
  {
    hide Reachable, NickOf, Step, Enabled;
    s := JoinsAlone();
    assert s.preLog.id == NOBODY by { ReachableIsSafe(s); }
    BobIsRelayed(s);
    Continues(s, ServerMessage(BOB_COMES, 0)); s := Step(ENV, s, ServerMessage(BOB_COMES, 0));
    assert s.preLog.id == NOBODY by { ReachableIsSafe(s); }
    AlLeavesFrom(s, {"al", "bob"});
    var leaves := ServerMessage(Moves("al", Part), 0);
    Continues(s, leaves); s := Step(ENV, s, leaves);
    assert {"al", "bob"} - {"al"} == {"bob"} by { Names(); }
    ReachableIsSafe(s);
    Names();
    JoinOnLeftovers(s, {"bob"}, []);
  }

  /** Our JOIN where the session from before the log and the log lead to somebody else. */
  lemma JoinOnLeftovers(s: State, users: set<string>, log: seq<Message>)
    requires Safe(s) && UsersIn(s.preLog, "#c") == users && LogOf(s.logs, "#c") == log && NoRenames(log)
    requires s.server.open && s.server.session == SessionView(AL, DONE, map[])
    requires "bob" in Replayed(users, log)
    ensures var t := Step(ENV, s, ServerMessage(Moves("al", Join), 0));
            && Enabled(s, ServerMessage(Moves("al", Join), 0))
            && !Reconstructible(t, "#c") && UsersIn(t.server.session, "#c") == {"al"}
  {
    hide HandleServer, NickOf, Reconstructible, Replayed, Verdict, LogOf;
    var m, s' := Moves("al", Join), s.(server := Renewed(ENV, s.server, 0));
    Names();
    StaleOnJoining(ENV, s', m, "#c", "al");
    Outcome(ENV, s', m, "#c");
    EntersRoom(s.server.session);
  }
}

/** What a client gets to hear: the messages of each log in their order, and, since it
    connected, what has put it into a channel or taken it out of one. */
module Delivery {
  import opened Text
  import opened Messages
  import opened ClientIds
  import opened Views
  import opened Logs
  import opened Machine
  import opened Safety
  import opened Reconstruction
  import opened Conservation
  import opened Rejoining

  // ---- In order ---------------------------------------------------------------------------

  /** `ms` occur among `all`, in their order. */
  predicate Subsequence(ms: seq<Message>, all: seq<Message>)
    decreases |all|
  {
    ms == [] ||
    (all != [] &&
     var rest, last := all[..|all| - 1], all[|all| - 1];
     Subsequence(ms, rest) || (ms[|ms| - 1] == last && Subsequence(ms[..|ms| - 1], rest)))
  }

  lemma {:induction false} InAllOf(ms: seq<Message>)
    ensures Subsequence(ms, ms)
  {
    if ms != [] { InAllOf(ms[..|ms| - 1]); }
  }

  lemma {:induction false} InMore(ms: seq<Message>, all: seq<Message>, more: seq<Message>)
    requires Subsequence(ms, all)
    ensures Subsequence(ms, all + more)
    decreases |more|
  {
    if more == [] {
      assert all + more == all;
    } else {
      InMore(ms, all, more[..|more| - 1]);
      assert (all + more)[..|all + more| - 1] == all + more[..|more| - 1];
    }
  }

  lemma {:induction false} OneAfterOther(a: seq<Message>, all: seq<Message>, b: seq<Message>, more: seq<Message>)
    requires Subsequence(a, all) && Subsequence(b, more)
    ensures Subsequence(a + b, all + more)
    decreases |more|
  {
    if b == [] {
      assert a + b == a;
      InMore(a, all, more);
    } else {
      var rest, last := more[..|more| - 1], more[|more| - 1];
      assert (all + more)[..|all + more| - 1] == all + rest;
      if Subsequence(b, rest) {
        OneAfterOther(a, all, b, rest);
      } else {
        OneAfterOther(a, all, b[..|b| - 1], rest);
        assert (a + b)[..|a + b| - 1] == a + b[..|b| - 1];
      }
    }
  }

  /** Of what a log held and was given since, all that it does not hold any more has been
      written, in order. */
  predicate Drained(held: seq<Message>, given: seq<Message>, holds: seq<Message>, written: seq<Message>)
  {
    var all := held + given;
    && |holds| <= |all|
    && all[|all| - |holds|..] == holds
    && Subsequence(all[..|all| - |holds|], written)
  }

  lemma DrainedOn(
    a: seq<Message>, given1: seq<Message>, b: seq<Message>, written1: seq<Message>,
    given2: seq<Message>, c: seq<Message>, written2: seq<Message>)
    requires Drained(a, given1, b, written1) && Drained(b, given2, c, written2)
    ensures Drained(a, given1 + given2, c, written1 + written2)
  {
    hide Subsequence;
    var gone1, gone2 := (a + given1)[..|a + given1| - |b|], (b + given2)[..|b + given2| - |c|];
    OneAfterOther(gone1, written1, gone2, written2);
    var all := a + (given1 + given2);
    assert a + given1 == gone1 + b && b + given2 == gone2 + c;
    assert all == (a + given1) + given2 == gone1 + (b + given2) == (gone1 + gone2) + c;
    assert all[..|all| - |c|] == gone1 + gone2;
  }

  // ---- Into a channel, and out of it -----------------------------------------------------------

  /** Who a session is, and the channels it has. */
  datatype Presence = Presence(id: ClientId, held: set<string>)

  function PresenceOf(s: SessionView): Presence { Presence(s.id, s.channels.Keys) }

  /** What a message makes of a presence. The first and the last message of a welcome are
      followed by a new identity. */
  ghost predicate Leads(p: Presence, m: Message, q: Presence)
  {
    && (forall name :: name in q.held <==> !Departs(p.id, m, name) && (name in p.held || IsAbout(m, name)))
    && (q.id == IdAfter(p.id, m) || m.command.RplWelcome? || m.command.RplMyinfo?)
  }

  /** One presence after the other, as the messages lead from each to the next. */
  ghost predicate IsHistory(ps: seq<Presence>, ms: seq<Message>)
  {
    |ps| == |ms| + 1 && forall i | 0 <= i < |ms| :: Leads(ps[i], ms[i], ps[i + 1])
  }

  ghost predicate Heard(p: Presence, q: Presence, ms: seq<Message>)
  {
    exists ps :: IsHistory(ps, ms) && ps[0] == p && ps[|ms|] == q
  }

  lemma HeardNothing(p: Presence)
    ensures Heard(p, p, [])
  {
    assert IsHistory([p], []);
  }

  lemma HeardOne(s: SessionView, m: Message)
    ensures Heard(PresenceOf(s), PresenceOf(SessionFromServer(s, m)), [m])
  {
    hide SessionFromServer;
    var ps := [PresenceOf(s), PresenceOf(SessionFromServer(s, m))];
    forall name
      ensures name in ps[1].held <==> !Departs(s.id, m, name) && (name in ps[0].held || IsAbout(m, name))
    {
      OneChannel(s, m, name);
    }
    IdFollows(s, m);
    assert IsHistory(ps, [m]);
  }

  lemma HeardOn(p: Presence, q: Presence, ms: seq<Message>, r: Presence, more: seq<Message>)
    requires Heard(p, q, ms) && Heard(q, r, more)
    ensures Heard(p, r, ms + more)
  {
    hide Leads;
    var ps :| IsHistory(ps, ms) && ps[0] == p && ps[|ms|] == q;
    var qs :| IsHistory(qs, more) && qs[0] == q && qs[|more|] == r;
    var all := ps + qs[1..];
    forall i | 0 <= i < |ms + more| ensures Leads(all[i], (ms + more)[i], all[i + 1]) {
      if i >= |ms| {
        var k := i - |ms|;
        assert (ms + more)[i] == more[k] && all[i + 1] == qs[k + 1] && all[i] == qs[k];
      } else {
        assert all[i] == ps[i] && all[i + 1] == ps[i + 1];
      }
    }
    assert IsHistory(all, ms + more);
  }

  /** The identity that a welcome ends with. */
  lemma HeardAs(p: Presence, q: Presence, ms: seq<Message>, id: ClientId)
    requires Heard(p, q, ms) && ms != []
    requires ms[|ms| - 1].command.RplWelcome? || ms[|ms| - 1].command.RplMyinfo?
    ensures Heard(p, q.(id := id), ms)
  {
    var ps :| IsHistory(ps, ms) && ps[0] == p && ps[|ms|] == q;
    var qs := ps[|ms| := q.(id := id)];
    forall i | 0 <= i < |ms| ensures Leads(qs[i], ms[i], qs[i + 1]) {
      assert Leads(ps[i], ms[i], ps[i + 1]);
    }
    assert IsHistory(qs, ms);
  }

  /** A message has put the session into the channel, and none has taken it out since. */
  ghost predicate Stuck(ps: seq<Presence>, ms: seq<Message>, name: string)
    requires |ps| == |ms| + 1
  {
    exists i | 0 <= i < |ms| ::
      IsAbout(ms[i], name) && forall j | i <= j < |ms| :: !Departs(ps[j].id, ms[j], name)
  }

  lemma {:induction false} HeldExactly(ps: seq<Presence>, ms: seq<Message>, name: string)
    requires IsHistory(ps, ms) && name !in ps[0].held
    ensures name in ps[|ms|].held <==> Stuck(ps, ms, name)
  {
    hide Departs, IsAbout;
    if ms != [] {
      var n := |ms| - 1;
      var before, ms' := ps[..n + 1], ms[..n];
      assert IsHistory(before, ms') by {
        forall i | 0 <= i < n ensures Leads(before[i], ms'[i], before[i + 1]) {
          assert Leads(ps[i], ms[i], ps[i + 1]);
        }
      }
      HeldExactly(before, ms', name);
      assert Leads(ps[n], ms[n], ps[n + 1]);
      if Stuck(before, ms', name) && !Departs(ps[n].id, ms[n], name) {
        var i :| 0 <= i < n && IsAbout(ms'[i], name) && forall j | i <= j < n :: !Departs(before[j].id, ms'[j], name);
        assert IsAbout(ms[i], name) && forall j | i <= j < |ms| :: !Departs(ps[j].id, ms[j], name) by {
          forall j | i <= j < |ms| ensures !Departs(ps[j].id, ms[j], name) {
            if j < n { assert !Departs(before[j].id, ms'[j], name); }
          }
        }
      }
      if Stuck(ps, ms, name) {
        var i :| 0 <= i < |ms| && IsAbout(ms[i], name) && forall j | i <= j < |ms| :: !Departs(ps[j].id, ms[j], name);
        assert !Departs(ps[n].id, ms[n], name);
        if i < n {
          assert IsAbout(ms'[i], name);
          forall j | i <= j < n ensures !Departs(before[j].id, ms'[j], name) {
            assert !Departs(ps[j].id, ms[j], name);
          }
        }
      }
      if IsAbout(ms[n], name) && !Departs(ps[n].id, ms[n], name) { assert Stuck(ps, ms, name); }
    }
  }

  // ---- What a client has been told ------------------------------------------------------------

  function ByServerAll(ms: seq<Message>): seq<Said>
  {
    seq(|ms|, i requires 0 <= i < |ms| => ByServer(ms[i]))
  }

  lemma ByServerBoth(ms: seq<Message>, more: seq<Message>)
    ensures ByServerAll(ms + more) == ByServerAll(ms) + ByServerAll(more)
  {
  }

  /** The handshake of a session that has been told `ms`. */
  predicate Learned(f: Flags, g: Flags, ms: seq<Message>)
  {
    g == FlagsAfterAll(f, ByServerAll(ms))
  }

  lemma LearnedNothing(f: Flags)
    ensures Learned(f, f, [])
  {
  }

  lemma LearnedOne(s: SessionView, m: Message)
    ensures Learned(s.flags, SessionFromServer(s, m).flags, [m])
  {
    hide ChannelsAfter, NickOf, FlagsFromServer;
    var said := ByServerAll([m]);
    assert said[0] == ByServer(m) && said[..0] == [];
    assert FlagsAfterAll(s.flags, []) == s.flags;
  }

  lemma LearnedOn(f: Flags, g: Flags, ms: seq<Message>, h: Flags, more: seq<Message>)
    requires Learned(f, g, ms) && Learned(g, h, more)
    ensures Learned(f, h, ms + more)
  {
    hide FlagsAfterAll, ByServerAll;
    ByServerBoth(ms, more);
    FlagsInParts(f, ByServerAll(ms), ByServerAll(more));
  }

  // ---- From one state to another -----------------------------------------------------------------

  /** Between `s` and `t` all is in order: the log `name`, given `entries`, is drained only by
      what is written, and a client that is still there has heard just that. */
  ghost predicate Flows(s: State, t: State, name: string, entries: seq<Message>)
  {
    && s.toClient <= t.toClient && s.attempts <= t.attempts
    && var written := t.toClient[|s.toClient|..];
    && Drained(LogOf(s.logs, name), entries, LogOf(t.logs, name), written)
    && (t.client.open ==>
          && s.client.open && Heard(PresenceOf(s.client.session), PresenceOf(t.client.session), written)
          && Learned(s.client.session.flags, t.client.session.flags, written))
  }

  lemma FlowsOn(s: State, t: State, u: State, name: string, entries: seq<Message>, more: seq<Message>)
    requires Flows(s, t, name, entries) && Flows(t, u, name, more)
    ensures Flows(s, u, name, entries + more)
  {
    hide Drained, Heard, PresenceOf, LogOf, Learned;
    var first, second := t.toClient[|s.toClient|..], u.toClient[|t.toClient|..];
    assert u.toClient[|s.toClient|..] == first + second;
    DrainedOn(LogOf(s.logs, name), entries, LogOf(t.logs, name), first, more, LogOf(u.logs, name), second);
    if u.client.open {
      HeardOn(PresenceOf(s.client.session), PresenceOf(t.client.session), first,
              PresenceOf(u.client.session), second);
      LearnedOn(s.client.session.flags, t.client.session.flags, first, u.client.session.flags, second);
    }
  }

  /** `FlowsOn` where nothing is logged. */
  lemma FlowsThen(s: State, t: State, u: State, name: string)
    requires Flows(s, t, name, []) && Flows(t, u, name, [])
    ensures Flows(s, u, name, [])
  {
    hide Flows;
    var nothing: seq<Message> := [];
    FlowsOn(s, t, u, name, nothing, nothing);
    assert nothing + nothing == nothing;
  }

  lemma Untouched(log: seq<Message>, written: seq<Message>)
    ensures Drained(log, [], log, written)
  {
    assert log + [] == log;
  }

  /** Nothing is written, no log changes, and the client is the same or gone. */
  lemma QuietFlows(s: State, t: State, name: string)
    requires t.toClient == s.toClient && t.logs == s.logs && s.attempts <= t.attempts
    requires t.client.open ==>
               && s.client.open && PresenceOf(t.client.session) == PresenceOf(s.client.session)
               && t.client.session.flags == s.client.session.flags
    ensures Flows(s, t, name, [])
  {
    hide Drained, Heard, PresenceOf, Learned;
    assert t.toClient[|s.toClient|..] == [];
    LearnedNothing(s.client.session.flags);
    Untouched(LogOf(s.logs, name), []);
    HeardNothing(PresenceOf(s.client.session));
  }

  lemma ClosingFlows(s: State, name: string)
    ensures Flows(s, DropClient(s), name, []) && Flows(s, Reset(s), name, [])
  {
    hide Flows;
    QuietFlows(s, DropClient(s), name);
    QuietFlows(s, Reset(s), name);
  }

  lemma SendTries(env: Env, s: State, m: Message)
    ensures SendClient(env, s, m).0.attempts == s.attempts + if s.client.open then 1 else 0
  {
    hide SessionFromServer;
  }

  lemma SendFlows(env: Env, s: State, m: Message, name: string)
    ensures Flows(s, SendClient(env, s, m).0, name, [])
  {
    hide SendClient, SessionFromServer, Drained, Heard, PresenceOf, LogOf, Learned;
    var (t, ok) := SendClient(env, s, m);
    Sent(env, s, m);
    SendTries(env, s, m);
    Untouched(LogOf(s.logs, name), t.toClient[|s.toClient|..]);
    if ok {
      assert t.toClient[|s.toClient|..] == [m];
      HeardOne(s.client.session, m);
      LearnedOne(s.client.session, m);
    }
  }

  lemma SendServerFlows(env: Env, s: State, m: Message, name: string)
    ensures Flows(s, SendServer(env, s, m).0, name, [])
  {
    hide Flows;
    QuietFlows(s, SendServer(env, s, m).0, name);
  }

  lemma {:induction false} SendAllFlows(env: Env, s: State, ms: seq<Message>, name: string)
    ensures Flows(s, SendAll(env, s, ms).0, name, [])
    decreases |ms|
  {
    hide SendClient, Flows;
    if ms == [] {
      QuietFlows(s, s, name);
    } else {
      SendFlows(env, s, ms[0], name);
      var (t, ok) := SendClient(env, s, ms[0]);
      if ok {
        SendAllFlows(env, t, ms[1..], name);
        FlowsThen(s, t, SendAll(env, t, ms[1..]).0, name);
      }
    }
  }

  // ---- Replays ---------------------------------------------------------------------------------

  /** A replay that gets to its end has written all that was left, and the log is empty; one
      that breaks off has lost the client, and kept the log. */
  lemma {:induction false} ReplayWrites(env: Env, s: State, name: string, ms: seq<Message>, i: nat)
    requires i <= |ms|
    ensures var t := ReplayFrom(env, s, name, ms, i);
            || (t.logs == Cleared(s.logs, name) && t.toClient == s.toClient + ms[i..])
            || (t.logs == s.logs && !t.client.open)
    decreases |ms| - i
  {
    hide SendClient, Cleared;
    if i == |ms| {
      assert s.toClient + ms[i..] == s.toClient;
    } else {
      Sent(env, s, ms[i]);
      var (t, ok) := SendClient(env, s, ms[i]);
      if ok {
        var u := t.(ledger := t.ledger.(replayed := t.ledger.replayed + multiset{ms[i]}));
        ReplayWrites(env, u, name, ms, i + 1);
        assert (s.toClient + [ms[i]]) + ms[i + 1..] == s.toClient + ms[i..];
      }
    }
  }

  /** A replay as sends to the client, the log left as it is. */
  lemma {:induction false} ReplayIsHeard(env: Env, s: State, name: string, ms: seq<Message>, i: nat, other: string)
    requires i <= |ms|
    ensures Flows(s, ReplayFrom(env, s, name, ms, i).(logs := s.logs), other, [])
    decreases |ms| - i
  {
    hide SendClient, Flows, Cleared;
    var t' := ReplayFrom(env, s, name, ms, i).(logs := s.logs);
    if i == |ms| {
      QuietFlows(s, t', other);
    } else {
      SendFlows(env, s, ms[i], other);
      Sent(env, s, ms[i]);
      var (t, ok) := SendClient(env, s, ms[i]);
      if ok {
        var u := t.(ledger := t.ledger.(replayed := t.ledger.replayed + multiset{ms[i]}));
        QuietFlows(t, u, other);
        FlowsThen(s, t, u, other);
        ReplayIsHeard(env, u, name, ms, i + 1, other);
        FlowsThen(s, u, t', other);
      } else {
        QuietFlows(t, t', other);
        FlowsThen(s, t, t', other);
      }
    }
  }

  lemma ReplayFlows(env: Env, s: State, name: string, other: string)
    ensures Flows(s, Replay(env, s, name), other, [])
  {
    hide ReplayFrom, Heard, Learned;
    var ms := LogOf(s.logs, name);
    var t := Replay(env, s, name);
    ReplayIsHeard(env, s, name, ms, 0, other);
    ReplayWrites(env, s, name, ms, 0);
    var written := t.toClient[|s.toClient|..];
    if t.logs != s.logs && other == name {
      assert ms[0..] == ms && written == ms;
      assert ms + [] == ms;
      InAllOf(ms);
    } else {
      assert LogOf(t.logs, other) == LogOf(s.logs, other);
      Untouched(LogOf(s.logs, other), written);
    }
  }

  // ---- Rejoins ---------------------------------------------------------------------------------

  lemma {:induction false} SendNamesFlows(
    env: Env, s: State, name: string, myNick: string, nicks: seq<string>, other: string)
    ensures Flows(s, SendNames(env, s, name, myNick, nicks).0, other, [])
    decreases |nicks|
  {
    hide SendClient, Flows;
    if nicks == [] {
      QuietFlows(s, s, other);
    } else {
      var m := NamesMessage(s.serverPrefix, myNick, name, nicks[0]);
      SendFlows(env, s, m, other);
      SentAbout(env, s, m, name);
      var (t, ok) := SendClient(env, s, m);
      if ok {
        var u := AddClientUser(t, name, nicks[0]);
        assert PresenceOf(u.client.session) == PresenceOf(t.client.session);
        QuietFlows(t, u, other);
        FlowsThen(s, t, u, other);
        SendNamesFlows(env, u, name, myNick, nicks[1..], other);
        FlowsThen(s, u, SendNames(env, u, name, myNick, nicks[1..]).0, other);
      }
    }
  }

  lemma SendJoinFlows(env: Env, s: State, name: string, other: string)
    requires s.client.open
    ensures var (t, ok) := SendJoin(env, s, name);
            && Flows(s, t, other, []) && t.attempts > s.attempts
            && (ok ==> t.client.open && name in t.client.session.channels)
  {
    hide SendClient, Flows, JoinMessage;
    var s', m := TouchPreLog(s, name), JoinMessage(s, name);
    QuietFlows(s, s', other);
    SendFlows(env, s', m, other);
    assert IsAbout(m, name) && m.command == Join by { JoinIsAbout(s, name); }
    SentAbout(env, s', m, name);
    var t := SendClient(env, s', m).0;
    FlowsThen(s, s', t, other);
    assert t.attempts == s.attempts + 1 by { SendTries(env, s', m); }
    SendFlows(env, t, TopicMessage(t, name), other);
    SentAbout(env, t, TopicMessage(t, name), name);
    FlowsThen(s, t, SendClient(env, t, TopicMessage(t, name)).0, other);
    assert SendClient(env, t, TopicMessage(t, name)).0.attempts >= t.attempts by {
      SendTries(env, t, TopicMessage(t, name));
    }
  }

  lemma JoinIsAbout(s: State, name: string)
    ensures IsAbout(JoinMessage(s, name), name) && JoinMessage(s, name).command == Join
  {
  }

  lemma IntroduceFlows(env: Env, s: State, name: string, order: seq<string>, other: string)
    requires s.client.open
    ensures Flows(s, Introduce(env, s, name, order).0, other, [])
    ensures Introduce(env, s, name, order).0.attempts > s.attempts
  {
    hide SendClient, SendNames, SendJoin, EndOfNamesMessage, Heard, Drained;
    SendJoinFlows(env, s, name, other);
    var (t, ok) := SendJoin(env, s, name);
    if ok {
      assert TouchClient(t, name) == t;
      SendNamesFlows(env, t, name, t.server.session.id.nick, order, other);
      var (u, named) := SendNames(env, t, name, t.server.session.id.nick, order);
      FlowsThen(s, t, u, other);
      if named {
        SendFlows(env, u, EndOfNamesMessage(u, name), other);
        FlowsThen(s, u, SendClient(env, u, EndOfNamesMessage(u, name)).0, other);
      }
    }
  }

  lemma RejoinFlows(env: Env, s: State, name: string, order: seq<string>, other: string)
    requires s.client.open
    ensures Flows(s, Rejoin(env, s, name, order), other, []) && Rejoin(env, s, name, order).attempts > s.attempts
  {
    hide Introduce, Replay, Heard, Drained;
    IntroduceFlows(env, s, name, order, other);
    var t := Introduce(env, s, name, order).0;
    ReplayFlows(env, t, name, other);
    FlowsThen(s, t, Replay(env, t, name), other);
  }

  /** What a rejoin says before the log: the client's own JOIN, the topic from before the log
      if there is one, a NAMES reply for each nick, and their end. */
  function RejoinMessages(s: State, name: string, order: seq<string>): seq<Message>
  {
    var me, myNick := Print(s.client.session.id), s.server.session.id.nick;
    var topic := ChannelIn(s.preLog.channels, name).topic;
    [Message(me, Join, [name])]
    + (if topic == "" then [] else [Message(s.serverPrefix, RplTopic, [me, name, topic])])
    + NamesMessages(s.serverPrefix, myNick, name, order)
    + [Message(s.serverPrefix, RplEndofnames, [myNick, name, "End of NAMES list"])]
  }

  function NamesMessages(prefix: string, myNick: string, name: string, nicks: seq<string>): seq<Message>
  {
    if nicks == [] then []
    else
      [Message(prefix, RplNamereply, [myNick, "=", name, nicks[0]])]
      + NamesMessages(prefix, myNick, name, nicks[1..])
  }

  lemma JoinIsSaid(env: Env, s: State, name: string)
    requires s.client.open
    ensures var (t, ok) := SendJoin(env, s, name);
            && t.logs == s.logs && t.serverPrefix == s.serverPrefix
            && (ok ==>
                  && t.server == s.server
                  && t.toClient == s.toClient + [JoinMessage(s, name)]
                       + if ChannelIn(s.preLog.channels, name).topic == "" then [] else [TopicMessage(s, name)])
  {
    hide SendClient, SessionFromServer, NickOf, Print;
    var s', m := TouchPreLog(s, name), JoinMessage(s, name);
    Sent(env, s', m);
    SentAbout(env, s', m, name);
    IdStays(s.client.session, m);
    var t := SendClient(env, s', m).0;
    Sent(env, t, TopicMessage(t, name));
    assert t.toClient + [] == t.toClient;
  }

  lemma {:induction false} NamesAreSaid(env: Env, s: State, name: string, myNick: string, nicks: seq<string>)
    ensures var (t, ok) := SendNames(env, s, name, myNick, nicks);
            && t.logs == s.logs && t.serverPrefix == s.serverPrefix
            && (ok ==>
                  && t.server == s.server
                  && t.toClient == s.toClient + NamesMessages(s.serverPrefix, myNick, name, nicks))
    decreases |nicks|
  {
    hide SendClient, SessionFromServer;
    if nicks == [] {
      assert s.toClient + [] == s.toClient;
    } else {
      var m := NamesMessage(s.serverPrefix, myNick, name, nicks[0]);
      Sent(env, s, m);
      var t := SendClient(env, s, m).0;
      var u := AddClientUser(t, name, nicks[0]);
      assert u.logs == t.logs && u.serverPrefix == t.serverPrefix && u.server == t.server && u.toClient == t.toClient;
      hide AddClientUser;
      NamesAreSaid(env, u, name, myNick, nicks[1..]);
      var rest := NamesMessages(s.serverPrefix, myNick, name, nicks[1..]);
      assert (s.toClient + [m]) + rest == s.toClient + ([m] + rest);
    }
  }

  /** A client that survives a rejoin has been sent the introduction and then the whole log, in
      order and nothing else, and the log is empty. */
  lemma RejoinIsSaid(env: Env, s: State, name: string, order: seq<string>)
    requires s.client.open
    ensures var t := Rejoin(env, s, name, order);
            t.client.open ==>
              && t.toClient == s.toClient + RejoinMessages(s, name, order) + LogOf(s.logs, name)
              && LogOf(t.logs, name) == []
  {
    hide SendClient, SendNames, SendJoin, ReplayFrom, NamesMessages, Print;
    JoinIsSaid(env, s, name);
    FailedJoinCloses(env, s, name);
    var (t, ok) := SendJoin(env, s, name);
    if ok {
      var t', myNick := TouchClient(t, name), s.server.session.id.nick;
      NamesAreSaid(env, t', name, myNick, order);
      FailedNamesClose(env, t', name, myNick, order);
      var (u, named) := SendNames(env, t', name, myNick, order);
      if named {
        var m := EndOfNamesMessage(u, name);
        Sent(env, u, m);
        var v := SendClient(env, u, m).0;
        var log := LogOf(s.logs, name);
        ReplayWrites(env, v, name, log, 0);
        assert log[0..] == log;
        assert v.client.open ==> v.toClient == s.toClient + RejoinMessages(s, name, order);
      }
    }
  }

  // ---- The handlers -------------------------------------------------------------------------------

  lemma WelcomeBackFlows(env: Env, s: State, name: string)
    ensures Flows(s, WelcomeBack(env, s), name, [])
  {
    hide SendAll, SendServer, Flows, WelcomeMessages;
    SendAllFlows(env, s, WelcomeMessages(s), name);
    var (t, ok) := SendAll(env, s, WelcomeMessages(s));
    if ok {
      var u := t.(client := t.client.(session := t.client.session.(id := t.server.session.id)));
      SentInFull(env, s, WelcomeMessages(s));
      WelcomeEnds(s);
      RenamedFlows(s, t, t.server.session.id, WelcomeMessages(s), name);
      SendServerFlows(env, u, Message("", Motd, []), name);
      FlowsThen(s, u, SendServer(env, u, Message("", Motd, [])).0, name);
    }
  }

  lemma WelcomeEnds(s: State)
    ensures WelcomeMessages(s) != [] && WelcomeMessages(s)[|WelcomeMessages(s)| - 1].command.RplMyinfo?
  {
  }

  lemma {:induction false} SentInFull(env: Env, s: State, ms: seq<Message>)
    ensures SendAll(env, s, ms).1 ==> SendAll(env, s, ms).0.toClient == s.toClient + ms
    decreases |ms|
  {
    hide SendClient;
    if ms != [] {
      Sent(env, s, ms[0]);
      var t := SendClient(env, s, ms[0]).0;
      SentInFull(env, t, ms[1..]);
      assert (s.toClient + [ms[0]]) + ms[1..] == s.toClient + ms;
    }
  }

  /** A welcome has been written, and its client then goes by `id`. */
  lemma RenamedFlows(s: State, t: State, id: ClientId, ms: seq<Message>, name: string)
    requires Flows(s, t, name, []) && t.toClient == s.toClient + ms && ms != []
    requires ms[|ms| - 1].command.RplWelcome? || ms[|ms| - 1].command.RplMyinfo?
    ensures Flows(s, t.(client := t.client.(session := t.client.session.(id := id))), name, [])
  {
    hide Drained, Heard, Learned;
    assert t.toClient[|s.toClient|..] == ms;
    if t.client.open {
      HeardAs(PresenceOf(s.client.session), PresenceOf(t.client.session), ms, id);
    }
  }

  lemma WelcomeFlows(env: Env, s: State, m: Message, name: string)
    requires m.command.RplWelcome?
    ensures Flows(s, Welcome(env, s, m), name, [])
  {
    hide SendClient, Flows, LastWord, Parse, Reset;
    var t := s.(serverPrefix := m.prefix);
    QuietFlows(s, t, name);
    match Parse(LastWord(m.Param(1)))
    case None =>
      ClosingFlows(t, name);
      FlowsThen(s, t, Reset(t), name);
    case Some(id) =>
      var u := t.(server := t.server.(session := t.server.session.(id := id)));
      QuietFlows(s, u, name);
      SendFlows(env, u, m, name);
      Sent(env, u, m);
      var v := SendClient(env, u, m).0;
      FlowsThen(s, u, v, name);
      if SendClient(env, u, m).1 { RenamedFlows(s, v, id, [m], name); }
  }

  lemma HandleHandshakeFlows(env: Env, s: State, m: Message, name: string)
    ensures Flows(s, HandleHandshake(env, s, m), name, [])
  {
    hide SendServer, WelcomeBack, Reset, Flows;
    QuietFlows(s, s, name);
    SendServerFlows(env, s, m, name);
    ClosingFlows(s, name);
    WelcomeBackFlows(env, s, name);
  }

  lemma HandleCommandFlows(env: Env, s: State, m: Message, order: seq<string>, name: string)
    requires s.client.open
    ensures Flows(s, HandleCommand(env, s, m, order), name, [])
  {
    hide SendServer, SendClient, Rejoin, DropClient, Flows;
    QuietFlows(s, s, name);
    SendServerFlows(env, s, m, name);
    match m.command
    case Ping => SendFlows(env, s, m.(prefix := "", command := Pong), name);
    case Quit => ClosingFlows(s, name);
    case Join => RejoinFlows(env, s, m.Param(0), order, name);
    case _ =>
  }

  /** The client has said `m`, which counts for its handshake if it is valid. */
  function Spoken(s: State, m: Message): State
  {
    if IsValid(m) then s.(client := s.client.(session := SessionFromClient(s.client.session, m))) else s
  }

  lemma HandleClientFlows(env: Env, s: State, m: Message, order: seq<string>, name: string)
    requires s.client.open
    ensures Flows(Spoken(s, m), HandleClient(env, s, m, order), name, [])
  {
    hide SendClient, DropClient, HandleHandshake, HandleCommand, Flows;
    match Validate(m)
    case Some(reply) =>
      SendFlows(env, s, reply, name);
      var t := SendClient(env, s, reply).0;
      ClosingFlows(t, name);
      FlowsThen(s, t, DropClient(t), name);
    case None =>
      var t := Spoken(s, m);
      HandleHandshakeFlows(env, t, m, name);
      HandleCommandFlows(env, t, m, order, name);
  }

  /** What is logged under `name` of a message that has come from the server. */
  function Entry(env: Env, s: State, m: Message, name: string): seq<Message>
  {
    if Loggable(m.command) && m.Param(0) == name && !GoesLive(env, s, m) then [m] else []
  }

  lemma LogFlows(s: State, m: Message, name: string)
    ensures Flows(s, LogMessage(s, m), name, if Loggable(m.command) && m.Param(0) == name then [m] else [])
  {
    hide Heard, PresenceOf, LogOf, Drained, Appended, Learned;
    var t := LogMessage(s, m);
    assert t.toClient[|s.toClient|..] == [];
    LearnedNothing(s.client.session.flags);
    HeardNothing(PresenceOf(s.client.session));
    if Loggable(m.command) { AppendedIsGiven(s.logs, m, name); } else { Untouched(LogOf(s.logs, name), []); }
  }

  lemma AppendedIsGiven(logs: Log, m: Message, name: string)
    ensures Drained(LogOf(logs, name), if m.Param(0) == name then [m] else [],
                    LogOf(Appended(logs, m.Param(0), m), name), [])
  {
    hide Subsequence;
    var all := LogOf(logs, name) + [m];
    assert all[..0] == [] && LogOf(logs, name) + [] == LogOf(logs, name);
    NoneOfNone();
  }

  lemma NoneOfNone()
    ensures Subsequence([], [])
  {
  }

  lemma RelayFlows(env: Env, s: State, m: Message, name: string)
    ensures var ok := s.client.open && env.writes(s.attempts);
            Flows(s, Relay(env, s, m), name, if !ok && Loggable(m.command) && m.Param(0) == name then [m] else [])
  {
    hide SendClient, LogMessage, Flows;
    SendFlows(env, s, m, name);
    Sent(env, s, m);
    var (t, ok) := SendClient(env, s, m);
    if ok {
      QuietFlows(t, Relay(env, s, m), name);
      FlowsThen(s, t, Relay(env, s, m), name);
    } else {
      LogFlows(t, m, name);
      var entries := if Loggable(m.command) && m.Param(0) == name then [m] else [];
      FlowsOn(s, t, LogMessage(t, m), name, [], entries);
      assert [] + entries == entries;
    }
  }

  lemma SendThenReplayFlows(env: Env, s: State, m: Message, name: string, other: string)
    ensures Flows(s, Replay(env, SendClient(env, s, m).0, name), other, [])
  {
    hide SendClient, Replay, Flows;
    SendFlows(env, s, m, other);
    var t := SendClient(env, s, m).0;
    ReplayFlows(env, t, name, other);
    FlowsThen(s, t, Replay(env, t, name), other);
  }

  lemma CachedFlows(env: Env, s: State, t: State, m: Message, haveCache: bool, name: string)
    requires t == s.(cache := t.cache)
    ensures Flows(s, SendClient(env, t, m).0, name, [])
    ensures Flows(s, SendClient(env, t, m).0.(haveCache := true), name, [])
  {
    hide SendClient, Flows;
    QuietFlows(s, t, name);
    SendFlows(env, t, m, name);
    var u := SendClient(env, t, m).0;
    FlowsThen(s, t, u, name);
    QuietFlows(u, u.(haveCache := true), name);
    FlowsThen(s, u, u.(haveCache := true), name);
  }

  lemma HandleReplyFlows(env: Env, s: State, m: Message, name: string)
    ensures Flows(s, HandleReply(env, s, m), name, Entry(env, s, m, name))
  {
    hide SendClient, SendServer, Replay, Relay, LogMessage, Welcome, Flows, IsMe;
    match m.command
    case Ping => SendServerFlows(env, s, m.(prefix := "", command := Pong), name);
    case Pong => QuietFlows(s, s, name);
    case RplWelcome => WelcomeFlows(env, s, m, name);
    case RplYourhost => CachedFlows(env, s, s.(cache := s.cache.(yourhost := m.Param(1))), m, true, name);
    case RplCreated => CachedFlows(env, s, s.(cache := s.cache.(created := m.Param(1))), m, true, name);
    case RplMyinfo =>
      var rest := if m.params == [] then [] else m.params[1..];
      CachedFlows(env, s, s.(cache := s.cache.(myinfo := rest)), m, true, name);
    case RplEndofmotd | ErrNomotd =>
      SendThenReplayFlows(env, s, m, SendClient(env, s, m).0.client.session.id.nick, name);
    case RplEndofnames => SendThenReplayFlows(env, s, m, m.Param(1), name);
    case Privmsg | Notice | Join | Kick | Part | Quit | Nick =>
      LogFlows(s, m, name);
      RelayFlows(env, s, m, name);
    case RplMotdstart | RplMotd | RplNamereply | RplTopic
       | ErrNonicknamegiven | ErrErroneusnickname | ErrNicknameinuse | ErrNickcollision =>
      SendFlows(env, s, m, name);
    case _ => RelayFlows(env, s, m, name);
  }

  // ---- The loop -----------------------------------------------------------------------------------

  lemma HandleServerFlows(env: Env, s: State, m: Message, name: string)
    ensures Flows(s, HandleServer(env, s, m), name, if IsValid(m) then Entry(env, s, m, name) else [])
  {
    hide HandleReply, Reset, Flows, IsValid, Entry;
    if IsValid(m) {
      var t := Track(s, m);
      assert t.client == s.client && t.logs == s.logs && t.toClient == s.toClient && t.attempts == s.attempts;
      assert Entry(env, t, m, name) == Entry(env, s, m, name) by { TrackedEntry(env, s, m, name); }
      QuietFlows(s, t, name);
      HandleReplyFlows(env, t, m, name);
      var entries := Entry(env, s, m, name);
      FlowsOn(s, t, HandleReply(env, t, m), name, [], entries);
      assert [] + entries == entries;
    } else {
      ClosingFlows(s, name);
    }
  }

  lemma TrackedEntry(env: Env, s: State, m: Message, name: string)
    ensures Entry(env, Track(s, m), m, name) == Entry(env, s, m, name)
  {
    hide IsMe;
  }

  lemma OfNothing(ms: seq<Message>)
    requires Subsequence(ms, [])
    ensures ms == []
  {
  }

  /** While no client is there, a log is given what belongs in it of the talk, the joins and
      departures, and the renames, and nothing else happens to it. */
  lemma AwayIsLogged(env: Env, s: State, m: Message, name: string)
    requires !s.client.open && s.server.open && IsValid(m)
    ensures LogOf(HandleServer(env, s, m).logs, name) ==
            LogOf(s.logs, name) +
            if m.command in {Privmsg, Notice, Join, Kick, Part, Nick} && m.Param(0) == name then [m] else []
  {
    hide HandleServer, LogOf, Heard, Learned, IsValid;
    HandleServerFlows(env, s, m, name);
    var t := HandleServer(env, s, m);
    NothingIsHeard(env, s, m);
    assert t.toClient[|s.toClient|..] == [];
    var all := LogOf(s.logs, name) + Entry(env, s, m, name);
    OfNothing(all[..|all| - |LogOf(t.logs, name)|]);
    assert all == all[..|all| - |LogOf(t.logs, name)|] + LogOf(t.logs, name);
  }

  lemma NothingIsHeard(env: Env, s: State, m: Message)
    requires !s.client.open
    ensures HandleServer(env, s, m).toClient == s.toClient
  {
    hide ReplayFrom, SessionFromServer, IsValid, LastWord, Parse, Indexable;
    ClosedReplaySays(env, Track(s, m), s.client.session.id.nick);
    ClosedReplaySays(env, Track(s, m), m.Param(1));
  }

  lemma ClosedReplaySays(env: Env, s: State, name: string)
    requires !s.client.open
    ensures Replay(env, s, name).toClient == s.toClient
  {
  }

  lemma CheckFlows(env: Env, s: State, now: int, name: string)
    ensures Flows(s, CheckClient(env, s, now), name, []) && Flows(s, CheckServer(env, s, now), name, [])
  {
    hide SendClient, SendServer, DropClient, Reset, Flows;
    ClosingFlows(s, name);
    QuietFlows(s, s, name);
    SendFlows(env, s, PING, name);
    SendServerFlows(env, s, PING, name);
    var t, u := SendClient(env, s, PING).0, SendServer(env, s, PING).0;
    var t', u' := t.(client := Pinged(env, t.client, now)), u.(server := Pinged(env, u.server, now));
    QuietFlows(t, t', name);
    QuietFlows(u, u', name);
    FlowsThen(s, t, t', name);
    FlowsThen(s, u, u', name);
  }

  /** What an event leaves in the log `name`. */
  function EventEntry(env: Env, s: State, e: Event, name: string): seq<Message>
  {
    match e
    case ServerMessage(m, _) => if IsValid(m) then Entry(env, s, m, name) else []
    case _ => []
  }

  /** The state that what is written in an event starts from. */
  function Before(s: State, e: Event): State
  {
    if e.ClientMessage? then Spoken(s, e.message) else s
  }

  lemma StepFlows(env: Env, s: State, e: Event, name: string)
    requires Enabled(s, e) && !e.NewClient?
    ensures Flows(Before(s, e), Step(env, s, e), name, EventEntry(env, s, e, name))
  {
    hide SessionFromClient, HandleClient, HandleServer, CheckClient, CheckServer, DropClient, Reset, Flows, Entry, IsValid, Enumerates;
    match e
    case ClientMessage(m, order, now) =>
      var t := s.(client := Renewed(env, s.client, now));
      QuietFlows(Spoken(s, m), Spoken(t, m), name);
      HandleClientFlows(env, t, m, order, name);
      FlowsThen(Spoken(s, m), Spoken(t, m), Step(env, s, e), name);
    case ServerMessage(m, now) =>
      var t := s.(server := Renewed(env, s.server, now));
      QuietFlows(s, t, name);
      HandleServerFlows(env, t, m, name);
      var entries := EventEntry(env, s, e, name);
      assert Entry(env, t, m, name) == Entry(env, s, m, name) by { RenewedEntry(env, s, m, now, name); }
      FlowsOn(s, t, Step(env, s, e), name, [], entries);
      assert [] + entries == entries;
    case ClientClosed(now) => ClosedFlows(s, s.(client := Renewed(env, s.client, now)), name);
    case ServerClosed(now) => ClosedFlows(s, s.(server := Renewed(env, s.server, now)), name);
    case Tick(clientNow, serverNow) =>
      CheckFlows(env, s, clientNow, name);
      var t := CheckClient(env, s, clientNow);
      CheckFlows(env, t, serverNow, name);
      FlowsThen(s, t, CheckServer(env, t, serverNow), name);
    case Stop => ClosingFlows(s, name);
  }

  lemma RenewedEntry(env: Env, s: State, m: Message, now: int, name: string)
    ensures Entry(env, s.(server := Renewed(env, s.server, now)), m, name) == Entry(env, s, m, name)
  {
  }

  lemma ClosedFlows(s: State, t: State, name: string)
    requires t == s.(client := t.client, server := t.server)
    requires t.client.open ==> s.client.open && t.client.session == s.client.session
    ensures Flows(s, DropClient(t), name, []) && Flows(s, Reset(t), name, [])
  {
    hide Flows, DropClient, Reset;
    QuietFlows(s, t, name);
    ClosingFlows(t, name);
    FlowsThen(s, t, DropClient(t), name);
    FlowsThen(s, t, Reset(t), name);
  }

  /** A client that connects starts with nothing, and neither the history nor a log changes. */
  lemma Connects(env: Env, s: State, connected: bool, clientNow: int, serverNow: int)
    ensures var t := Connect(env, s, connected, clientNow, serverNow);
            && t.toClient == s.toClient && t.logs == s.logs
            && (t.client.open ==> t.client.session == NEW_SESSION)
  {
  }

  /** All that the first `i` events leave in the log `name`. */
  function Entries(env: Env, states: seq<State>, events: seq<Event>, name: string, i: nat): seq<Message>
    requires i <= |events| <= |states|
  {
    if i == 0 then []
    else Entries(env, states, events, name, i - 1) + EventEntry(env, states[i - 1], events[i - 1], name)
  }

  /** First in, first out, over every run: a log holds the last of what it held at the start
      and was given since, in order, and all before that has been written to clients, in
      order, whatever else was. */
  lemma {:induction false} FirstInFirstOut(
    env: Env, states: seq<State>, events: seq<Event>, logs: Log, name: string, i: nat)
    requires IsRun(env, states, events) && states[0] == Initial(logs) && i <= |events|
    ensures Drained(LogOf(logs, name), Entries(env, states, events, name, i), LogOf(states[i].logs, name),
                    states[i].toClient)
  {
    hide Step, Enabled, Drained, EventEntry, LogOf, Heard;
    if i == 0 {
      Untouched(LogOf(logs, name), []);
    } else {
      FirstInFirstOut(env, states, events, logs, name, i - 1);
      var s, e, t := states[i - 1], events[i - 1], states[i - 1 + 1];
      assert s.toClient <= t.toClient
             && Drained(LogOf(s.logs, name), EventEntry(env, s, e, name), LogOf(t.logs, name),
                        t.toClient[|s.toClient|..]) by { StepDrains(env, s, e, name); }
      DrainedOn(LogOf(logs, name), Entries(env, states, events, name, i - 1), LogOf(s.logs, name), s.toClient,
                EventEntry(env, s, e, name), LogOf(t.logs, name), t.toClient[|s.toClient|..]);
      assert s.toClient + t.toClient[|s.toClient|..] == t.toClient;
    }
  }

  lemma StepDrains(env: Env, s: State, e: Event, name: string)
    requires Enabled(s, e)
    ensures var t := Step(env, s, e);
            s.toClient <= t.toClient
            && Drained(LogOf(s.logs, name), EventEntry(env, s, e, name), LogOf(t.logs, name),
                       t.toClient[|s.toClient|..])
  {
    hide Step, Enabled, Drained, LogOf, Heard, Learned, SessionFromClient;
    if e.NewClient? {
      Connects(env, s, e.connected, e.clientNow, e.serverNow);
      assert Step(env, s, e) == Connect(env, s, e.connected, e.clientNow, e.serverNow) by { ConnectStep(env, s, e); }
      Untouched(LogOf(s.logs, name), []);
      assert Step(env, s, e).toClient[|s.toClient|..] == [];
    } else {
      StepFlows(env, s, e, name);
    }
  }

  lemma ConnectStep(env: Env, s: State, e: Event)
    requires e.NewClient?
    ensures Step(env, s, e) == Connect(env, s, e.connected, e.clientNow, e.serverNow)
  {
  }

  // ---- Since a client connected ----------------------------------------------------------------------

  /** The place in a run right after the last client connected; 0 if none has. */
  function LastConnect(events: seq<Event>, i: nat): (k: nat)
    requires i <= |events|
    ensures k <= i
  {
    if i == 0 then 0 else if events[i - 1].NewClient? then i else LastConnect(events, i - 1)
  }

  const NOWHERE := Presence(NOBODY, {})

  /** What was written to the client that is there after `i` events. */
  function WrittenToClient(states: seq<State>, events: seq<Event>, i: nat): seq<Message>
    requires |states| == |events| + 1 && i <= |events|
    requires |states[LastConnect(events, i)].toClient| <= |states[i].toClient|
  {
    states[i].toClient[|states[LastConnect(events, i)].toClient|..]
  }

  lemma {:induction false} ClientHasHeard(
    env: Env, states: seq<State>, events: seq<Event>, logs: Log, i: nat)
    requires IsRun(env, states, events) && states[0] == Initial(logs) && i <= |events|
    ensures states[LastConnect(events, i)].toClient <= states[i].toClient
    ensures states[i].client.open ==>
              Heard(NOWHERE, PresenceOf(states[i].client.session), WrittenToClient(states, events, i))
  {
    hide Step, Enabled, Heard, Drained, EventEntry, Learned;
    if i > 0 {
      ClientHasHeard(env, states, events, logs, i - 1);
      var s, e, t := states[i - 1], events[i - 1], states[i - 1 + 1];
      if e.NewClient? {
        Connects(env, s, e.connected, e.clientNow, e.serverNow);
        ConnectStep(env, s, e);
        NewIsNowhere();
        HeardNothing(NOWHERE);
        assert t.toClient[|t.toClient|..] == [];
      } else {
        StepFlows(env, s, e, "");
        var k := LastConnect(events, i);
        if t.client.open {
          assert PresenceOf(Before(s, e).client.session) == PresenceOf(s.client.session);
          HeardOn(NOWHERE, PresenceOf(s.client.session), s.toClient[|states[k].toClient|..],
                  PresenceOf(t.client.session), t.toClient[|s.toClient|..]);
          assert t.toClient[|states[k].toClient|..] ==
                 s.toClient[|states[k].toClient|..] + t.toClient[|s.toClient|..];
        }
      }
    }
  }

  lemma NewIsNowhere()
    ensures PresenceOf(NEW_SESSION) == NOWHERE
  {
  }

  /** What was said between the client that is there after `i` events and the proxy: its valid
      messages, and what was written to it. */
  function Dialogue(states: seq<State>, events: seq<Event>, i: nat): seq<Said>
    requires |states| == |events| + 1 && i <= |events|
  {
    if i == 0 || events[i - 1].NewClient? then []
    else
      var s, t := states[i - 1], states[i];
      Dialogue(states, events, i - 1)
      + (if events[i - 1].ClientMessage? && IsValid(events[i - 1].message)
         then [ByClient(events[i - 1].message)] else [])
      + ByServerAll(if |s.toClient| <= |t.toClient| then t.toClient[|s.toClient|..] else [])
  }

  /** Over every run the flags of the client's handshake are what its dialogue makes of them. */
  lemma {:induction false} FlagsFollowDialogue(
    env: Env, states: seq<State>, events: seq<Event>, logs: Log, i: nat)
    requires IsRun(env, states, events) && states[0] == Initial(logs) && i <= |events|
    ensures states[i].client.open ==>
              states[i].client.session.flags == FlagsAfterAll(NO_FLAGS, Dialogue(states, events, i))
  {
    hide Step, Enabled, Heard, Drained, EventEntry, FlagsAfterAll, ByServerAll, IsValid;
    if i > 0 {
      FlagsFollowDialogue(env, states, events, logs, i - 1);
      var s, e, t := states[i - 1], events[i - 1], states[i - 1 + 1];
      if e.NewClient? {
        Connects(env, s, e.connected, e.clientNow, e.serverNow);
        ConnectStep(env, s, e);
        NoDialogue();
      } else {
        StepFlows(env, s, e, "");
        var before := Dialogue(states, events, i - 1);
        var own := if e.ClientMessage? && IsValid(e.message) then [ByClient(e.message)] else [];
        var told := ByServerAll(t.toClient[|s.toClient|..]);
        if t.client.open {
          assert Before(s, e).client.session.flags == FlagsAfterAll(NO_FLAGS, before + own) by {
            SpokenFlags(s, e, before);
          }
          FlagsInParts(NO_FLAGS, before + own, told);
          assert Dialogue(states, events, i) == before + own + told;
        }
      }
    }
  }

  lemma NoDialogue()
    ensures FlagsAfterAll(NO_FLAGS, []) == NO_FLAGS
  {
  }

  lemma SpokenFlags(s: State, e: Event, before: seq<Said>)
    requires s.client.session.flags == FlagsAfterAll(NO_FLAGS, before)
    ensures var own := if e.ClientMessage? && IsValid(e.message) then [ByClient(e.message)] else [];
            Before(s, e).client.session.flags == FlagsAfterAll(NO_FLAGS, before + own)
  {
    hide FlagsFromClient;
    if e.ClientMessage? { assert (before + [ByClient(e.message)])[..|before|] == before; }
    assert before + [] == before;
  }

  /** So a client is registered exactly if at some moment since it connected it had given a user
      and a nick not refused afterwards, and been told the end of the message of the day. */
  lemma RegisteredExactly(env: Env, states: seq<State>, events: seq<Event>, logs: Log, i: nat)
    requires IsRun(env, states, events) && states[0] == Initial(logs) && i <= |events|
    requires states[i].client.open
    ensures var said := Dialogue(states, events, i);
            states[i].client.session.flags.Done() <==> exists n | 0 <= n <= |said| :: IsComplete(said[..n])
  {
    hide Step, Enabled, IsComplete, FlagsAfterAll;
    FlagsFollowDialogue(env, states, events, logs, i);
    DoneByHistory(Dialogue(states, events, i));
  }

  /** A registered client's JOIN is answered, by a write to it or to the server, exactly if its
      session does not have the channel. */
  lemma AnsweredExactly(env: Env, s: State, m: Message, order: seq<string>)
    requires m.command.Join? && IsValid(m)
    requires s.client.open && s.server.open && s.client.session.flags.Done()
    ensures HandleClient(env, s, m, order).attempts > s.attempts <==> m.Param(0) !in s.client.session.channels
  {
    hide Rejoin;
    var t := s.(client := s.client.(session := SessionFromClient(s.client.session, m)));
    RejoinFlows(env, t, m.Param(0), order, "");
  }

  /** Over every run: whether the JOIN of a registered client is answered is decided by what was
      written to it since it connected. It is ignored exactly if a message has put the
      client's session into the channel, asked for or not, and no later one was a
      departure of whoever the client was by then. */
  lemma IgnoredIfStuck(
    env: Env, states: seq<State>, events: seq<Event>, logs: Log, i: nat, m: Message, order: seq<string>)
    requires IsRun(env, states, events) && states[0] == Initial(logs) && WellKept(logs) && i <= |events|
    requires m.command.Join? && IsValid(m) && states[i].client.open && states[i].client.session.flags.Done()
    ensures |states[LastConnect(events, i)].toClient| <= |states[i].toClient|
    ensures var ms := WrittenToClient(states, events, i);
            exists ps: seq<Presence> ::
              && IsHistory(ps, ms) && ps[0] == NOWHERE && ps[|ms|] == PresenceOf(states[i].client.session)
              && (HandleClient(env, states[i], m, order).attempts == states[i].attempts <==>
                  Stuck(ps, ms, m.Param(0)))
  {
    hide Step, Enabled, HandleClient, Leads, Stuck, IsValid, Safe;
    ClientHasHeard(env, states, events, logs, i);
    var ms := WrittenToClient(states, events, i);
    var ps :| IsHistory(ps, ms) && ps[0] == NOWHERE && ps[|ms|] == PresenceOf(states[i].client.session);
    HeldExactly(ps, ms, m.Param(0));
    assert states[i].server.open by { RunIsSafe(env, states, events, logs, i); }
    AnsweredExactly(env, states[i], m, order);
    assert HandleClient(env, states[i], m, order).attempts >= states[i].attempts by {
      HandleClientFlows(env, states[i], m, order, "");
    }
  }

  lemma RunIsSafe(env: Env, states: seq<State>, events: seq<Event>, logs: Log, i: nat)
    requires IsRun(env, states, events) && states[0] == Initial(logs) && WellKept(logs) && i <= |events|
    ensures states[i].client.open ==> states[i].server.open
  {
    hide Step, Enabled, AllValid, WellKept;
    RunsAreSafe(env, states, events, logs, i);
  }

  /** On every orderly run, a client that comes back, has heard nothing about the channel since
      it connected, joins it and stays connected sees exactly the users the server knows
      of. */
  lemma ComesBackToServersUsers(
    env: Env, states: seq<State>, events: seq<Event>, logs: Log, name: string, i: nat)
    requires IsRun(env, states, events) && states[0] == Initial(logs)
    requires LogsOk(logs, name)
    requires forall j | 0 <= j < |events| :: Orderly(env, states[j], events[j], name)
    requires i < |events| && events[i].ClientMessage? && events[i].message.command.Join?
    requires IsValid(events[i].message) && events[i].message.Param(0) == name
    requires states[i].client.session.flags.Done() && name in states[i].server.session.channels
    requires |states[LastConnect(events, i)].toClient| <= |states[i].toClient|
    requires forall m | m in WrittenToClient(states, events, i) :: !IsAbout(m, name)
    requires NeverLeaves(states[i].client.session.id, LogOf(states[i].logs, name), 0, name)
    ensures var t := states[i + 1];
            t.client.open ==>
              && name in t.client.session.channels && name in t.server.session.channels
              && t.client.session.channels[name].users == t.server.session.channels[name].users
  {
    hide Step, Orderly, WellKept, NeverLeaves, IsTalk, IsAbout, IsValid, Leads, Enumerates;
    assert Enabled(states[i], events[i]) && states[i].client.open;
    ClientHasHeard(env, states, events, logs, i);
    var ms := WrittenToClient(states, events, i);
    var ps :| IsHistory(ps, ms) && ps[0] == NOWHERE && ps[|ms|] == PresenceOf(states[i].client.session);
    HeldExactly(ps, ms, name);
    assert !Stuck(ps, ms, name);
    RejoinShowsServersUsers(env, states, events, logs, name, i);
  }
}

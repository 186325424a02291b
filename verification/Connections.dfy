/** One side of the proxy: a connection that may be open or not, with its session and its
    keepalive deadlines. */
module Connections {
  import opened Messages
  import opened ClientIds
  import opened Views
  import opened Machine
  import opened Sessions

  class Connection {
    var open: bool
    var session: Session
    var pingSent: bool
    var pingDeadline: int
    var dropDeadline: int
    ghost var Repr: set<object>

    ghost predicate Valid()
      reads this, Repr
      ensures Valid() ==> this in Repr
    {
      && this in Repr && session in Repr
      && session.Repr <= Repr && this !in session.Repr
      && session.Valid()
    }

    ghost function View(): Conn
      requires Valid()
      reads this, Repr
    {
      Conn(open, session.View(), pingSent, pingDeadline, dropDeadline)
    }

    /** A connection in the disconnected state. */
    constructor ()
      ensures Valid() && fresh(Repr) && View() == CLOSED
    {
      open, pingSent, pingDeadline, dropDeadline := false, false, 0, 0;
      session := new Session();
      new;
      Repr := {this} + session.Repr;
    }

    predicate IsClosed()
      reads this
    {
      !open
    }

    method UpdateDeadlines(env: Env, now: int)
      requires Valid()
      modifies this
      ensures Valid() && Repr == old(Repr) && session == old(session)
      ensures View() == Renewed(env, old(View()), now)
    {
      pingDeadline := now + env.pingTime;
      pingSent := false;
    }

    function Id(): (id: ClientId)
      requires Valid()
      reads this, Repr
      ensures id == View().session.id
    {
      session.id
    }

    function Flags(): (f: Views.Flags)
      requires Valid()
      reads this, Repr
      ensures f == View().session.flags
    {
      session.handshake.View()
    }

    predicate HaveChannel(name: string)
      requires Valid()
      reads this, Repr
      ensures HaveChannel(name) <==> name in View().session.channels
    {
      session.HaveChannel(name)
    }

    predicate IsMe(prefix: string)
      requires Valid()
      reads this, Repr
      ensures IsMe(prefix) <==> Views.IsMe(View().session, prefix)
    {
      session.IsMe(prefix)
    }

    /** Tears the connection down; nothing to do if it is closed. */
    method Shutdown()
      requires Valid()
      modifies this
      ensures Valid() && fresh(Repr - old(Repr))
      ensures View() == Machine.Shutdown(old(View()))
    {
      if IsClosed() { return; }
      open, pingSent, pingDeadline, dropDeadline := false, false, 0, 0;
      session := new Session();
      Repr := {this} + session.Repr;
    }

    method Setup(env: Env, now: int)
      requires Valid()
      modifies this
      ensures Valid() && fresh(Repr - old(Repr))
      ensures View() == Machine.Setup(env, old(View()), now)
    {
      open := true;
      session := new Session();
      Repr := {this} + session.Repr;
      UpdateDeadlines(env, now);
    }

    /** The PING has gone out; waits for any message until the drop deadline. */
    method MarkPinged(env: Env, now: int)
      requires Valid()
      modifies this
      ensures Valid() && Repr == old(Repr)
      ensures View() == Pinged(env, old(View()), now)
    {
      pingSent := true;
      dropDeadline := now + env.pingTime;
    }

    method SetId(id: ClientId)
      requires Valid()
      modifies Repr
      ensures Valid() && Repr == old(Repr)
      ensures View() == old(View()).(session := old(View()).session.(id := id))
    {
      session.id := id;
    }

    method UpdateFromClient(msg: Message)
      requires Valid()
      modifies Repr
      ensures Valid() && fresh(Repr - old(Repr))
      ensures View() == old(View()).(session := SessionFromClient(old(View()).session, msg))
    {
      session.UpdateFromClient(msg);
    }

    method UpdateFromServer(msg: Message)
      requires Valid() && Indexable(msg)
      modifies Repr
      ensures Valid() && fresh(Repr - old(Repr))
      ensures View() == old(View()).(session := SessionFromServer(old(View()).session, msg))
      ensures session == old(session)
      ensures session.channels == old(session.channels)
      ensures forall c | c in old(session.channels.channels) && c in session.channels.channels ::
                session.channels.channels[c] == old(session.channels.channels[c])
    {
      session.UpdateFromServer(msg);
      Repr := Repr + session.Repr;
    }

    /** The channel's state, made on the spot if there is none. */
    method GetChannel(name: string) returns (state: ChannelState)
      requires Valid()
      modifies Repr
      ensures Valid() && fresh(Repr - old(Repr))
      ensures Holds(name, state)
      ensures View() == old(View()).(session := old(View()).session.(channels :=
                old(View()).session.channels[name := ChannelIn(old(View()).session.channels, name)]))
    {
      state := session.GetChannel(name);
      Repr := Repr + session.Repr;
    }

    /** `state` is the object this connection's session keeps for the channel. */
    ghost predicate Holds(name: string, state: ChannelState)
      requires Valid()
      reads this, Repr
    {
      name in session.channels.channels && session.channels.channels[name] == state
    }

    /** Adds a user through a channel state obtained earlier. */
    method AddUser(name: string, state: ChannelState, nick: string)
      requires Valid() && Holds(name, state)
      modifies Repr
      ensures Valid() && Repr == old(Repr) && Holds(name, state)
      ensures var s, ch := old(View()).session, ChannelIn(old(View()).session.channels, name);
              View() == old(View()).(session := s.(channels :=
                          s.channels[name := ch.(users := ch.users + {nick})]))
    {
      state.AddUser(nick);
    }
  }
}

/** The store that keeps its logs in memory. */
module Ephemeral {
  import opened Text
  import opened Messages
  import opened Logs

  class Store {
    /** A name without messages has no entry. */
    var channels: Log

    constructor ()
      ensures channels == map[]
    {
      channels := map[];
    }

    method GetChannel(name: string) returns (log: ChannelLog)
      ensures fresh(log) && log.store == this && log.name == name
    {
      log := new ChannelLog(this, name);
    }
  }

  /** A handle on one log. It holds no messages itself, so any two handles on the same
      name and store see the same log. */
  class ChannelLog {
    const store: Store
    const name: string

    constructor (store: Store, name: string)
      ensures this.store == store && this.name == name
    {
      this.store, this.name := store, name;
    }

    method LogMessage(msg: Message)
      modifies store
      ensures store.channels == Apply(old(store.channels), Append(name, msg))
    {
      if name !in store.channels {
        assert [] + [msg] == [msg];
        store.channels := store.channels[name := [msg]];
      } else {
        store.channels := store.channels[name := store.channels[name] + [msg]];
      }
    }

    method Clear()
      modifies store
      ensures store.channels == Apply(old(store.channels), Op.Clear(name))
    {
      store.channels := store.channels - {name};
    }

    method Replay() returns (cursor: Cursor)
      ensures fresh(cursor)
      ensures cursor.msgs == LogOf(store.channels, name) && cursor.i == 0
    {
      if name !in store.channels {
        cursor := new Cursor([]);
      } else {
        cursor := new Cursor(store.channels[name]);
      }
    }
  }

  class Cursor {
    const msgs: seq<Message>
    var i: nat

    /** The messages still to come. */
    ghost function Rest(): seq<Message>
      reads this
    {
      if i <= |msgs| then msgs[i..] else []
    }

    constructor (msgs: seq<Message>)
      ensures this.msgs == msgs && i == 0
    {
      this.msgs, i := msgs, 0;
    }

    /** None at the end of the log. */
    method Get() returns (m: Option<Message>)
      ensures m == if i >= |msgs| then None else Some(msgs[i])
      ensures m == if Rest() == [] then None else Some(Rest()[0])
    {
      if i >= |msgs| { return None; }
      return Some(msgs[i]);
    }

    method Next()
      modifies this
      ensures i == old(i) + 1
      ensures Rest() == if old(Rest()) == [] then [] else old(Rest())[1..]
    {
      i := i + 1;
    }
  }

  /** Replaying a log to its end yields the log. */
  method Drain(log: ChannelLog) returns (ms: seq<Message>)
    ensures ms == LogOf(log.store.channels, log.name)
  {
    hide LogOf;
    var cursor := log.Replay();
    ms := [];
    var m := cursor.Get();
    while m.Some?
      invariant fresh(cursor) && cursor.i <= |cursor.msgs| && cursor.msgs == LogOf(log.store.channels, log.name)
      invariant ms == cursor.msgs[..cursor.i]
      invariant m == if cursor.i == |cursor.msgs| then None else Some(cursor.msgs[cursor.i])
      decreases |cursor.msgs| - cursor.i
    {
      ms := ms + [m.value];
      cursor.Next();
      m := cursor.Get();
    }
  }
}

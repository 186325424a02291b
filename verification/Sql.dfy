/** The store on top of an SQL table. The table is modelled as its rows in the order of
    their automatic ids; messages are stored as they are printed. */
module Sql {
  import opened Text
  import opened Messages
  import opened Codec
  import opened Logs

  datatype Row = Row(id: nat, channel: string, message: string)

  /** The rows have increasing ids, all below the next one to be given out. */
  ghost predicate Ordered(rows: seq<Row>, nextId: nat)
  {
    && (forall i, j | 0 <= i < j < |rows| :: rows[i].id < rows[j].id)
    && (forall i | 0 <= i < |rows| :: rows[i].id < nextId)
  }

  /** `SELECT message FROM messages WHERE channel = ? ORDER BY id` */
  function Select(rows: seq<Row>, channel: string): seq<string>
  {
    if rows == [] then []
    else
      Select(rows[..|rows| - 1], channel) +
      (if rows[|rows| - 1].channel == channel then [rows[|rows| - 1].message] else [])
  }

  /** `DELETE FROM messages WHERE channel = ?` */
  function Delete(rows: seq<Row>, channel: string): seq<Row>
  {
    if rows == [] then []
    else
      Delete(rows[..|rows| - 1], channel) +
      (if rows[|rows| - 1].channel == channel then [] else [rows[|rows| - 1]])
  }

  function Printed(ms: seq<Message>): seq<string>
  {
    seq(|ms|, i requires 0 <= i < |ms| => Print(ms[i]))
  }

  /** The table stores these logs. */
  ghost predicate Stores(rows: seq<Row>, logs: Log)
  {
    forall channel :: Select(rows, channel) == Printed(LogOf(logs, channel))
  }

  lemma {:induction false} DeletedAreGone(rows: seq<Row>, channel: string, other: string)
    ensures Select(Delete(rows, channel), other) == if other == channel then [] else Select(rows, other)
  {
    if rows != [] {
      var init, last := rows[..|rows| - 1], rows[|rows| - 1];
      DeletedAreGone(init, channel, other);
      var kept := Delete(init, channel);
      assert (kept + [last])[..|kept|] == kept;
      assert kept + [] == kept;
    }
  }

  lemma {:induction false} DeletedStayOrdered(rows: seq<Row>, channel: string, nextId: nat)
    requires Ordered(rows, nextId)
    ensures Ordered(Delete(rows, channel), nextId)
    ensures forall r | r in Delete(rows, channel) :: r in rows
  {
    if rows != [] {
      var init, last := rows[..|rows| - 1], rows[|rows| - 1];
      DeletedStayOrdered(init, channel, last.id);
    }
  }

  /** The rows of the table, and the next id to be given out. */
  datatype Table = Table(rows: seq<Row>, nextId: nat)

  const EMPTY := Table([], 0)

  /** What one use of a log does to the table. */
  function Perform(t: Table, op: Op): Table
  {
    match op
    case Append(name, m) => Table(t.rows + [Row(t.nextId, name, Print(m))], t.nextId + 1)
    case Clear(name) => t.(rows := Delete(t.rows, name))
  }

  function PerformAll(t: Table, ops: seq<Op>): Table
  {
    if ops == [] then t else Perform(PerformAll(t, ops[..|ops| - 1]), ops[|ops| - 1])
  }

  class Database {
    var table: Table

    ghost predicate Valid()
      reads this
    {
      Ordered(table.rows, table.nextId)
    }

    constructor ()
      ensures Valid() && table == EMPTY
    {
      table := EMPTY;
    }

    method Insert(channel: string, message: string)
      requires Valid()
      modifies this
      ensures Valid()
      ensures table == Table(old(table.rows) + [Row(old(table.nextId), channel, message)], old(table.nextId) + 1)
    {
      table := Table(table.rows + [Row(table.nextId, channel, message)], table.nextId + 1);
    }

    method DeleteChannel(channel: string)
      requires Valid()
      modifies this
      ensures Valid() && table == old(table).(rows := Delete(old(table.rows), channel))
    {
      DeletedStayOrdered(table.rows, channel, table.nextId);
      table := table.(rows := Delete(table.rows, channel));
    }
  }

  class Store {
    const db: Database
    var haveSchema: bool

    constructor (db: Database)
      ensures this.db == db && !haveSchema
    {
      this.db, haveSchema := db, false;
    }

    /** `created`: whether the database let us create the table, if that is still to do. */
    method GetChannel(name: string, created: bool) returns (log: ChannelLog?)
      modifies this
      ensures log == null <==> !old(haveSchema) && !created
      ensures log != null ==> log.db == db && log.name == name && haveSchema
    {
      if !haveSchema {
        if !created { return null; }
        haveSchema := true;
      }
      log := new ChannelLog(db, name);
    }
  }

  class ChannelLog {
    const db: Database
    const name: string

    constructor (db: Database, name: string)
      ensures this.db == db && this.name == name
    {
      this.db, this.name := db, name;
    }

    /** `works`: whether the database does what it is asked. */
    method LogMessage(msg: Message, works: bool) returns (ok: bool)
      requires db.Valid()
      modifies db
      ensures db.Valid() && ok == works
      ensures db.table == if works then Perform(old(db.table), Append(name, msg)) else old(db.table)
    {
      if works { db.Insert(name, Print(msg)); }
      return works;
    }

    method Clear(works: bool) returns (ok: bool)
      requires db.Valid()
      modifies db
      ensures db.Valid() && ok == works
      ensures db.table == if works then Perform(old(db.table), Op.Clear(name)) else old(db.table)
    {
      if works { db.DeleteChannel(name); }
      return works;
    }

    method Replay() returns (cursor: Cursor)
      ensures fresh(cursor) && cursor.At(Select(db.table.rows, name))
    {
      cursor := new Cursor(Select(db.table.rows, name));
    }
  }

  /** What one use does to what is selected for any channel. */
  lemma PerformSelects(t: Table, op: Op, channel: string)
    ensures Select(Perform(t, op).rows, channel) ==
            match op
            case Append(name, m) => Select(t.rows, channel) + (if channel == name then [Print(m)] else [])
            case Clear(name) => if channel == name then [] else Select(t.rows, channel)
  {
    match op
    case Append(name, m) =>
      assert Perform(t, op).rows[..|t.rows|] == t.rows;
    case Clear(name) => DeletedAreGone(t.rows, name, channel);
  }

  /** One use of the store, of whichever kind, does to the logs what it should. */
  lemma TableRefinesLogs(t: Table, logs: Log, op: Op)
    requires Stores(t.rows, logs)
    ensures Stores(Perform(t, op).rows, Apply(logs, op))
  {
    hide Select, Print, Perform;
    forall channel
      ensures Select(Perform(t, op).rows, channel) == Printed(LogOf(Apply(logs, op), channel))
    {
      assert Select(t.rows, channel) == Printed(LogOf(logs, channel));
      PerformSelects(t, op, channel);
      match op
      case Append(name, m) =>
        if channel == name {
          assert Printed(LogOf(logs, channel) + [m]) == Printed(LogOf(logs, channel)) + [Print(m)];
        } else {
          assert LogOf(Apply(logs, op), channel) == LogOf(logs, channel);
        }
      case Clear(name) =>
        if channel == name { assert Printed([]) == []; }
    }
  }

  /** After any use of the store the table stores the logs of that use. */
  lemma {:induction false} TableStoresRun(ops: seq<Op>)
    ensures Stores(PerformAll(EMPTY, ops).rows, Run(map[], ops))
  {
    hide Perform, Apply, Print;
    if ops == [] {
      assert Printed([]) == [];
    } else {
      TableStoresRun(ops[..|ops| - 1]);
      TableRefinesLogs(PerformAll(EMPTY, ops[..|ops| - 1]), Run(map[], ops[..|ops| - 1]), ops[|ops| - 1]);
    }
  }

  /** The ids of the rows selected. */
  function SelectedIds(rows: seq<Row>, channel: string): seq<nat>
  {
    if rows == [] then []
    else
      SelectedIds(rows[..|rows| - 1], channel) +
      (if rows[|rows| - 1].channel == channel then [rows[|rows| - 1].id] else [])
  }

  /** In an ordered table, what is selected for a channel is the texts of all its rows, by
      increasing id, as `ORDER BY id` asks. */
  lemma {:induction false} SelectsById(rows: seq<Row>, nextId: nat, channel: string)
    requires Ordered(rows, nextId)
    ensures var ids, texts := SelectedIds(rows, channel), Select(rows, channel);
            && |ids| == |texts|
            && (forall i, j | 0 <= i < j < |ids| :: ids[i] < ids[j])
            && (forall i | 0 <= i < |ids| :: ids[i] < nextId && Row(ids[i], channel, texts[i]) in rows)
            && (forall row | row in rows && row.channel == channel :: row.id in ids)
  {
    if rows != [] {
      var init, last := rows[..|rows| - 1], rows[|rows| - 1];
      SelectsById(init, last.id, channel);
      assert rows == init + [last];
    }
  }

  // ---- Cursors --------------------------------------------------------------------------

  datatype Err = NoError | EndOfLog | Failed

  /** `ParseMessage` with its error. Text that holds no message reads as the end of the
      input, which is the same error as the end of the log. */
  function ReadText(text: string): (Option<Message>, Err)
  {
    match ReadMessage(text)
    case (Read(m), rest) => if ReadMessage(rest).0 == EndOfInput then (Some(m), NoError) else (None, Failed)
    case (EndOfInput, _) => (None, EndOfLog)
    case (TooLong, _) => (None, Failed)
  }

  lemma ReadTextIsParse(text: string)
    ensures ReadText(text).0 == ParseMessage(text)
    ensures ReadText(text).1 == NoError <==> ParseMessage(text).Some?
  {
  }

  class Cursor {
    var rows: seq<string>         // the rows not yet fetched
    var msg: Option<Message>
    var err: Err

    /** The cursor points at the first of `texts`, or at the end if there are none. */
    ghost predicate At(texts: seq<string>)
      reads this
    {
      if texts == [] then rows == [] && err == EndOfLog
      else rows == texts[1..] && err == ReadText(texts[0]).1 && msg == ReadText(texts[0]).0
    }

    constructor (result: seq<string>)
      ensures At(result)
    {
      rows, msg, err := result, None, NoError;
      new;
      Next();
    }

    method Get() returns (m: Option<Message>, e: Err)
      ensures m == msg && e == err
    {
      return msg, err;
    }

    /** At the end the last message stays in place, behind the error. */
    method Next()
      modifies this
      ensures At(old(rows))
    {
      if rows == [] {
        err := EndOfLog;
        return;
      }
      var (m, e) := ReadText(rows[0]);
      rows, msg, err := rows[1..], m, e;
    }
  }

  /** What `Drain` promises about the texts it reads. */
  ghost predicate DrainedFrom(texts: seq<string>, ms: seq<Message>)
  {
    && |ms| <= |texts|
    && (forall i | 0 <= i < |ms| :: ParseMessage(texts[i]) == Some(ms[i]))
    && (|ms| < |texts| ==> ParseMessage(texts[|ms|]) == None)
  }

  /** Replaying a log until its cursor reports an error: the messages are those read back
      from the rows, in order, up to the first row that does not read back. A row without
      a message in it cannot be told from the end of the log. */
  method Drain(log: ChannelLog) returns (ms: seq<Message>, e: Err)
    ensures var texts := Select(log.db.table.rows, log.name);
            && DrainedFrom(texts, ms)
            && e == if |ms| == |texts| then EndOfLog else ReadText(texts[|ms|]).1
  {
    hide ReadText, ParseMessage, Select;
    ghost var texts := Select(log.db.table.rows, log.name);
    var cursor := log.Replay();
    ms := [];
    var m;
    m, e := cursor.Get();
    while e == NoError
      invariant |ms| <= |texts| && fresh(cursor) && cursor.At(texts[|ms|..])
      invariant m == cursor.msg && e == cursor.err
      invariant forall i | 0 <= i < |ms| :: ParseMessage(texts[i]) == Some(ms[i])
      decreases |texts| - |ms|
    {
      ReadTextIsParse(texts[|ms|]);
      assert texts[|ms|..][1..] == texts[|ms| + 1..];
      ms := ms + [m.value];
      cursor.Next();
      m, e := cursor.Get();
    }
    if |ms| < |texts| { ReadTextIsParse(texts[|ms|]); }
  }

  /** The table is a faithful store exactly on the domain of the codec: a replay returns the
      log as it was logged if and only if every message in it survives printing. */
  lemma FaithfulOnDomain(logged: seq<Message>, ms: seq<Message>)
    requires DrainedFrom(Printed(logged), ms)
    ensures ms == logged <==> forall m | m in logged :: InDomain(m)
  {
    hide InDomain, ParseMessage, Print;
    forall i | 0 <= i < |logged|
      ensures ParseMessage(Printed(logged)[i]) == Some(logged[i]) <==> InDomain(logged[i])
    {
      RoundTrip(logged[i]);
    }
    assert (forall m | m in logged :: InDomain(m)) <==> forall i | 0 <= i < |logged| :: InDomain(logged[i]);
    assert |ms| < |logged| ==> !InDomain(logged[|ms|]);
    assert |ms| == |logged| ==>
        (ms == logged <==> forall i | 0 <= i < |logged| :: ParseMessage(Printed(logged)[i]) == Some(logged[i]));
  }

  /** End to end: after any use of the store, a replay of a log returns exactly what was
      appended to it since it was last cleared if and only if all of that is in the
      domain. */
  lemma TableIsFaithful(ops: seq<Op>, name: string, ms: seq<Message>)
    requires DrainedFrom(Select(PerformAll(EMPTY, ops).rows, name), ms)
    ensures var logged := AppendedTo(ops[AfterLastClear(ops, name)..], name);
            ms == logged <==> forall m | m in logged :: InDomain(m)
  {
    hide Select, PerformAll, DrainedFrom, InDomain;
    TableStoresRun(ops);
    HoldsSinceLastClear(ops, name);
    var logged := AppendedTo(ops[AfterLastClear(ops, name)..], name);
    assert Select(PerformAll(EMPTY, ops).rows, name) == Printed(logged);
    FaithfulOnDomain(logged, ms);
  }

  /** The row of a message that came over the wire and is of a kind that is logged never
      reads as the end of the log: it yields a message, or, if the line came with a bare
      newline and is now too long for the reader, an error. */
  lemma RowsOfReceived(line: string)
    requires '\n' !in line
    ensures match ParseLine(line)
            case None => true
            case Some(m) =>
              Loggable(m.command) ==>
                ReadText(Print(m)).1 == if |Print(m)| <= MAX_MESSAGE_LEN then NoError else Failed
  {
    hide ParseLine, ParseMessage, Print, Line, TakeWord, ToCommand;
    match ParseLine(line)
    case None =>
    case Some(m) =>
      if Loggable(m.command) {
        ParsedHasNoNewline(line);
        LineHasNewline(m);
        ReprintParses(line);
        assert Print(m) == Line(m) + "\r\n" + "" by { PrintIsLine(m); }
        ReadOfPrinted(Line(m), "");
        NothingToRead();
      }
  }

  lemma PrintIsLine(m: Message)
    ensures Print(m) == Line(m) + "\r\n" + ""
    ensures |Print(m)| == |Line(m)| + 2
  {
  }

  /** What a line parses to prints to a line that parses, if its command is a plain word. */
  lemma ReprintParses(line: string)
    requires ParseLine(line).Some? && Loggable(ParseLine(line).value.command)
    ensures ParseLine(Line(ParseLine(line).value)).Some?
  {
    hide ParseLine, ToCommand, ParamsText, ParseParams, Word, Plain, ParseAfterPrefix, Loggable;
    var m := ParseLine(line).value;
    var tail := Word(m.command) + ParamsText(m.params);
    LoggedWord(m.command);
    assert tail[0] == Word(m.command)[0];
    PrefixIsPlain(line);
    if m.prefix == "" {
      assert Line(m) == tail;
      StartParses(tail);
    } else {
      PrefixReadsBack(m.prefix, tail);
      assert Line(m) == ":" + (m.prefix + " " + tail);
      AfterPrefixParses(m.prefix, tail);
    }
  }

  lemma AfterPrefixParses(prefix: string, s: string)
    requires s != ""
    ensures ParseAfterPrefix(prefix, s).Some?
  {
  }

  lemma LoggedWord(c: Command)
    requires Loggable(c)
    ensures Word(c) != "" && Word(c)[0] != ':'
  {
  }

  lemma StartParses(line: string)
    requires line != "" && line[0] != ':'
    ensures ParseLine(line).Some?
  {
  }

  lemma PrefixIsPlain(line: string)
    requires ParseLine(line).Some?
    ensures Plain(ParseLine(line).value.prefix)
  {
    hide ToCommand, ParseParams;
    if line[0] == ':' {
      var rest := line[1..];
      assert rest[0] != ':';
      var n := Before(rest, ' ');
      assert n > 0 ==> rest[..n][0] == rest[0];
    }
  }

  const LONG := Message("", Privmsg, ["#c", seq(500, _ => 'A')])

  lemma LongLine()
    ensures |Line(LONG)| == 511 && CleanLine(LONG) && NoNewline(LONG)
  {
    var params, long := LONG.params, LONG.params[1];
    assert params[1..] == [long] && ' ' !in long && '\n' !in long;
    assert Joined(params) == "#c" + " " + long;
    assert |Word(Privmsg)| == 7;
  }

  lemma LineIsRead(m: Message)
    requires |Line(m)| == 511 && '\n' !in Line(m) && ParseLine(Line(m)) == Some(m)
    requires Line(m)[510] != '\r'
    ensures ReadMessage(Line(m) + "\n") == (Read(m), "")
  {
    hide ParseLine, Line;
    var stream := Line(m) + "\n";
    BeforeIs(stream, '\n', 511);
    assert stream[..511] == Line(m) && stream[512..] == "" && DropCR(Line(m)) == Line(m);
  }

  lemma LongEnd()
    requires |Line(LONG)| == 511
    ensures Line(LONG)[510] == 'A'
  {
    var params, long := LONG.params, LONG.params[1];
    assert params[1..] == [long] && ' ' !in long;
    assert Joined(params) == ("#c" + " ") + long;
    assert Line(LONG)[510] == long[499];
  }

  /** A message of 511 bytes for the log of "#c": it is read, and a replay stops at its row. */
  lemma LongRowStopsReplay()
    ensures |Line(LONG)| == 511 && ReadMessage(Line(LONG) + "\n") == (Read(LONG), "")
    ensures ReadText(Print(LONG)) == (None, Failed)
  {
    hide ParseLine, Line, CleanLine, NoNewline;
    LongLine();
    LongEnd();
    CommandsAreWords(Privmsg);
    LineReadsBack(LONG);
    LineHasNewline(LONG);
    LineIsRead(LONG);
    PrintIsLine(LONG);
    ReadOfPrinted(Line(LONG), "");
  }

  /** A last parameter such as ":)" is where the two stores part: it is logged as a valid
      message and comes back from the table as another one. */
  lemma SmileyIsLost()
    ensures var m := Message("", Privmsg, ["#c", ":)"]);
            IsValid(m) && !InDomain(m) && ParseMessage(Print(m)) != Some(m)
  {
    var m := Message("", Privmsg, ["#c", ":)"]);
    assert m.params[1][0] == ':' && ' ' !in m.params[1];
    RoundTrip(m);
  }
}

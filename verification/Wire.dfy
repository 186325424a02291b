/** The byte loops of the message codec, proved against the functions of `Codec`. */
module Wire {
  import opened Text
  import opened Messages
  import opened Codec

  /** `bytes.Buffer`: bytes are read at the front and written at the back. */
  class Buffer {
    var data: string
    var off: nat

    ghost predicate Valid()
      reads this
    {
      off <= |data|
    }

    ghost function Contents(): string
      requires Valid()
      reads this
    {
      data[off..]
    }

    constructor (contents: string)
      ensures Valid() && Contents() == contents
    {
      data, off := contents, 0;
    }

    /** None at the end of the buffer. */
    method ReadByte() returns (c: Option<char>)
      requires Valid()
      modifies this`off
      ensures Valid()
      ensures c.None? <==> old(Contents()) == ""
      ensures c.None? ==> off == old(off)
      ensures c.Some? ==> c.value == old(Contents())[0] && Contents() == old(Contents())[1..]
      ensures c.Some? ==> off == old(off) + 1
    {
      if off == |data| { return None; }
      c := Some(data[off]);
      off := off + 1;
    }

    /** Undoes the read of one byte. */
    method UnreadByte()
      requires Valid() && off > 0
      modifies this`off
      ensures Valid()
      ensures off == old(off) - 1 && Contents() == data[off..]
    {
      off := off - 1;
    }

    method WriteByte(c: char)
      requires Valid()
      modifies this`data
      ensures Valid() && Contents() == old(Contents()) + [c]
    {
      data := data + [c];
    }

    method Reset()
      modifies this
      ensures Valid() && Contents() == ""
    {
      data, off := "", 0;
    }

    method String() returns (s: string)
      requires Valid()
      ensures s == Contents()
    {
      s := data[off..];
    }
  }

  // ---- Printing -------------------------------------------------------------------

  function Min(a: nat, b: nat): nat { if a < b then a else b }

  /** An `io.Writer`: of what its k-th write is given, the first `accepts(k)` bytes go
      through, and a write that falls short reports an error. */
  class Writer {
    const accepts: nat -> nat
    var written: string
    var writes: nat

    constructor (accepts: nat -> nat)
      ensures this.accepts == accepts && written == "" && writes == 0
    {
      this.accepts, written, writes := accepts, "", 0;
    }

    method Write(s: string) returns (n: nat, failed: bool)
      modifies this
      ensures n == Min(accepts(old(writes)), |s|) && (failed <==> n < |s|)
      ensures written == old(written) + s[..n] && writes == old(writes) + 1
    {
      n := Min(accepts(writes), |s|);
      failed := n < |s|;
      written, writes := written + s[..n], writes + 1;
    }
  }

  /** The writes that print a message. */
  function Pieces(m: Message): seq<string>
  {
    (if m.prefix == "" then [] else [":" + m.prefix + " "]) + [Word(m.command)]
    + ParamPieces(m.params) + ["\r\n"]
  }

  function ParamPieces(params: seq<string>): seq<string>
  {
    if params == [] then [] else InnerPieces(params[..|params| - 1]) + [" " + LastText(params[|params| - 1])]
  }

  function InnerPieces(params: seq<string>): seq<string>
  {
    if params == [] then [] else InnerPieces(params[..|params| - 1]) + [" " + params[|params| - 1]]
  }

  /** What goes through of `pieces`, the first of them being write number `k`. */
  function GoneThrough(pieces: seq<string>, accepts: nat -> nat, k: nat): string
  {
    if pieces == [] then ""
    else
      var last := |pieces| - 1;
      GoneThrough(pieces[..last], accepts, k) + pieces[last][..Min(accepts(k + last), |pieces[last]|)]
  }

  /** Some of the writes fail. */
  predicate FallsShort(pieces: seq<string>, accepts: nat -> nat, k: nat)
  {
    exists i | 0 <= i < |pieces| :: accepts(k + i) < |pieces[i]|
  }

  /** What a sequence of writes has come to. */
  ghost predicate Wrote(w: Writer, before: string, first: nat, pieces: seq<string>, n: nat)
    reads w
  {
    && w.writes == first + |pieces|
    && w.written == before + GoneThrough(pieces, w.accepts, first)
    && n == |GoneThrough(pieces, w.accepts, first)|
  }

  lemma OnePieceMore(pieces: seq<string>, s: string, accepts: nat -> nat, k: nat)
    ensures GoneThrough(pieces + [s], accepts, k) ==
            GoneThrough(pieces, accepts, k) + s[..Min(accepts(k + |pieces|), |s|)]
  {
    assert (pieces + [s])[..|pieces|] == pieces;
  }

  /** One write of `WriteTo`, its number of bytes added up by `checkErr`. */
  method WritePiece(w: Writer, s: string, n: nat, ghost before: string, ghost first: nat, ghost pieces: seq<string>)
    returns (total: nat, failed: bool)
    requires Wrote(w, before, first, pieces, n)
    modifies w
    ensures Wrote(w, before, first, pieces + [s], total)
    ensures failed <==> w.accepts(first + |pieces|) < |s|
  {
    hide GoneThrough;
    OnePieceMore(pieces, s, w.accepts, first);
    var sz;
    sz, failed := w.Write(s);
    total := n + sz;
  }

  /** `Message.WriteTo`: makes the writes of the printed form one after the other and counts
      the bytes that go through. `checkErr` keeps an error only if there is one already, so
      none is ever returned, and no failure stops the writing. */
  method WriteTo(m: Message, w: Writer) returns (n: nat, failed: bool)
    modifies w
    ensures !failed
    ensures Wrote(w, old(w.written), old(w.writes), Pieces(m), n)
  {
    hide GoneThrough;
    ghost var before, first, pieces := w.written, w.writes, [];
    var e;
    n, failed := 0, false;
    assert GoneThrough(pieces, w.accepts, first) == "" by { NothingGone(w.accepts, first); }
    if m.prefix != "" {
      n, e := WritePiece(w, ":" + m.prefix + " ", n, before, first, pieces);
      failed := failed && e;
      pieces := pieces + [":" + m.prefix + " "];
    }
    n, e := WritePiece(w, Word(m.command), n, before, first, pieces);
    failed := failed && e;
    pieces := pieces + [Word(m.command)];
    if |m.params| != 0 {
      n, failed := WriteParams(m.params, w, n, failed, before, first, pieces);
    }
    assert m.params == [] ==> pieces + ParamPieces(m.params) == pieces;
    pieces := pieces + ParamPieces(m.params);
    n, e := WritePiece(w, "\r\n", n, before, first, pieces);
    failed := failed && e;
    assert pieces + ["\r\n"] == Pieces(m);
  }

  lemma NothingGone(accepts: nat -> nat, k: nat)
    ensures GoneThrough([], accepts, k) == ""
  {
  }

  /** The part of `WriteTo` that prints the parameters. */
  method WriteParams(params: seq<string>, w: Writer, n: nat, failed: bool,
                     ghost before: string, ghost first: nat, ghost pieces: seq<string>)
    returns (total: nat, err: bool)
    requires params != [] && Wrote(w, before, first, pieces, n) && !failed
    modifies w
    ensures Wrote(w, before, first, pieces + ParamPieces(params), total) && !err
  {
    hide GoneThrough, Wrote;
    total, err := n, failed;
    var e;
    var lastIndex := |params| - 1;
    assert pieces + [] == pieces;
    for i := 0 to lastIndex
      invariant Wrote(w, before, first, pieces + InnerPieces(params[..i]), total) && !err
    {
      assert params[..i + 1][..i] == params[..i];
      assert pieces + InnerPieces(params[..i + 1]) == pieces + InnerPieces(params[..i]) + [" " + params[i]];
      total, e := WritePiece(w, " " + params[i], total, before, first, pieces + InnerPieces(params[..i]));
      err := err && e;
    }
    var lastParam := params[lastIndex];
    var text := if ' ' in lastParam then " :" + lastParam else " " + lastParam;
    assert text == " " + LastText(lastParam);
    assert pieces + ParamPieces(params) == pieces + InnerPieces(params[..lastIndex]) + [text];
    total, e := WritePiece(w, text, total, before, first, pieces + InnerPieces(params[..lastIndex]));
    err := err && e;
  }

  // ---- When the printed form arrives -------------------------------------------------

  /** All the bytes the pieces hold. */
  function Concat(pieces: seq<string>): string
  {
    if pieces == [] then "" else Concat(pieces[..|pieces| - 1]) + pieces[|pieces| - 1]
  }

  lemma {:induction false} ConcatAdds(a: seq<string>, b: seq<string>)
    ensures Concat(a + b) == Concat(a) + Concat(b)
  {
    if b == [] {
      assert a + b == a;
    } else {
      var init := b[..|b| - 1];
      ConcatAdds(a, init);
      assert (a + b)[..|a + b| - 1] == a + init;
    }
  }

  lemma ConcatOne(s: string)
    ensures Concat([s]) == s
  {
    assert [s][..0] == [];
    assert "" + s == s;
  }

  lemma {:induction false} InnerPrints(params: seq<string>, last: string)
    ensures Concat(InnerPieces(params)) + " " + LastText(last) == ParamsText(params + [last])
    decreases |params|
  {
    hide Concat, LastText;
    if params == [] {
      assert [] + [last] == [last];
      NoPieces();
      assert "" + " " + LastText(last) == " " + LastText(last);
    } else {
      hide InnerPieces, ParamsText, Joined;
      var tail := params[1..];
      InnerPrints(tail, last);
      InnerFromFront(params);
      WordThenParams(params[0], tail + [last]);
      assert params + [last] == [params[0]] + (tail + [last]);
      Associate(" " + params[0], Concat(InnerPieces(tail)), " ");
      Associate(" " + params[0], Concat(InnerPieces(tail)) + " ", LastText(last));
    }
  }

  lemma WordThenParams(word: string, params: seq<string>)
    requires params != []
    ensures ParamsText([word] + params) == (" " + word) + ParamsText(params)
  {
    assert ([word] + params)[1..] == params;
    assert " " + (word + " " + Joined(params)) == (" " + word) + (" " + Joined(params));
  }

  lemma Associate(a: string, b: string, c: string)
    ensures a + b + c == a + (b + c)
  {
  }

  lemma {:induction false} InnerFromFront(params: seq<string>)
    requires params != []
    ensures Concat(InnerPieces(params)) == (" " + params[0]) + Concat(InnerPieces(params[1..]))
  {
    var init, last := params[..|params| - 1], params[|params| - 1];
    ConcatAdds(InnerPieces(init), [" " + last]);
    ConcatOne(" " + last);
    if |params| == 1 {
      assert init == [] && params[1..] == [];
      assert "" + (" " + last) == (" " + last) + "";
    } else {
      InnerFromFront(init);
      assert init[1..] == params[1..][..|params| - 2];
      ConcatAdds(InnerPieces(init[1..]), [" " + last]);
    }
  }

  /** The pieces of a message are its printed form, cut up. */
  lemma PiecesPrint(m: Message)
    ensures Concat(Pieces(m)) == Print(m)
  {
    hide ParamsText, InnerPieces, Concat;
    var front := if m.prefix == "" then [] else [":" + m.prefix + " "];
    ConcatOne(":" + m.prefix + " ");
    ConcatOne(Word(m.command));
    ConcatOne("\r\n");
    assert Concat([]) == "" by { NoPieces(); }
    assert Concat(ParamPieces(m.params)) == ParamsText(m.params) by { ParamPiecesPrint(m.params); }
    ConcatAdds(front, [Word(m.command)]);
    ConcatAdds(front + [Word(m.command)], ParamPieces(m.params));
    ConcatAdds(front + [Word(m.command)] + ParamPieces(m.params), ["\r\n"]);
    assert PrefixText(m.prefix) + Word(m.command) + ParamsText(m.params) == Line(m);
  }

  lemma NoPieces()
    ensures Concat([]) == ""
  {
  }

  lemma ParamPiecesPrint(params: seq<string>)
    ensures Concat(ParamPieces(params)) == ParamsText(params)
  {
    if params != [] {
      var init, last := params[..|params| - 1], params[|params| - 1];
      ConcatAdds(InnerPieces(init), [" " + LastText(last)]);
      ConcatOne(" " + LastText(last));
      InnerPrints(init, last);
      assert params == init + [last];
      var inner := Concat(InnerPieces(init));
      assert inner + (" " + LastText(last)) == inner + " " + LastText(last);
    }
  }

  lemma {:induction false} ThroughIsShorter(pieces: seq<string>, accepts: nat -> nat, k: nat)
    ensures |GoneThrough(pieces, accepts, k)| <= |Concat(pieces)|
    ensures FallsShort(pieces, accepts, k) ==> |GoneThrough(pieces, accepts, k)| < |Concat(pieces)|
    ensures !FallsShort(pieces, accepts, k) ==> GoneThrough(pieces, accepts, k) == Concat(pieces)
  {
    if pieces != [] {
      var init := pieces[..|pieces| - 1];
      ThroughIsShorter(init, accepts, k);
      assert FallsShort(pieces, accepts, k) <==>
             FallsShort(init, accepts, k) || accepts(k + |init|) < |pieces[|init|]| by {
        if FallsShort(pieces, accepts, k) && accepts(k + |init|) >= |pieces[|init|]| {
          var i :| 0 <= i < |pieces| && accepts(k + i) < |pieces[i]|;
          assert init[i] == pieces[i];
        }
        if FallsShort(init, accepts, k) {
          var i :| 0 <= i < |init| && accepts(k + i) < |init[i]|;
          assert pieces[i] == init[i];
        }
      }
    }
  }

  /** A `WriteTo` that reports no error, as it always does, has written the whole message
      exactly if none of its writes failed. */
  lemma WrittenExactly(m: Message, accepts: nat -> nat, k: nat)
    ensures GoneThrough(Pieces(m), accepts, k) == Print(m) <==> !FallsShort(Pieces(m), accepts, k)
  {
    hide Pieces, GoneThrough, Concat, FallsShort, Print;
    PiecesPrint(m);
    ThroughIsShorter(Pieces(m), accepts, k);
  }

  /** A writer that takes nothing is given every message, and nobody is told. */
  lemma NothingIsWritten(m: Message)
    ensures GoneThrough(Pieces(m), _ => 0, 0) == "" && Print(m) != ""
  {
    hide Pieces;
    NothingThrough(Pieces(m));
  }

  lemma {:induction false} NothingThrough(pieces: seq<string>)
    ensures GoneThrough(pieces, _ => 0, 0) == ""
  {
    if pieces != [] { NothingThrough(pieces[..|pieces| - 1]); }
  }

  /** `Message.Len`: the length of the printed form, without printing. */
  method Len(m: Message) returns (total: nat)
    ensures total == |Print(m)|
  {
    total := 0;
    if m.prefix != "" {
      total := total + |m.prefix| + 2;
    }
    total := total + |Word(m.command)|;
    total := total + |m.params|;
    if |m.params| != 0 && ' ' in m.params[|m.params| - 1] {
      total := total + 1;
    }
    ghost var start := total;
    for i := 0 to |m.params|
      invariant total + TotalLength(m.params[i..]) == start + TotalLength(m.params)
    {
      assert m.params[i..][1..] == m.params[i + 1..];
      total := total + |m.params[i]|;
    }
    ParamsLength(m.params);
    total := total + 2;
  }

  ghost function TotalLength(params: seq<string>): nat
  {
    if params == [] then 0 else |params[0]| + TotalLength(params[1..])
  }

  lemma {:induction false} ParamsLength(params: seq<string>)
    ensures |ParamsText(params)| == |params| + TotalLength(params)
                                    + (if params != [] && ' ' in params[|params| - 1] then 1 else 0)
  {
    if |params| == 1 {
      assert TotalLength(params[1..]) == 0;
    } else if |params| > 1 {
      ParamsLength(params[1..]);
    }
  }

  /** `Message.Eq`: equality of messages, parameter by parameter. */
  method Eq(m1: Message, m2: Message) returns (equal: bool)
    ensures equal <==> m1 == m2
  {
    if m1.prefix != m2.prefix || m1.command != m2.command { return false; }
    if |m1.params| != |m2.params| { return false; }
    for i := 0 to |m1.params|
      invariant m1.params[..i] == m2.params[..i]
    {
      if m1.params[i] != m2.params[i] { return false; }
    }
    assert m1.params == m1.params[..|m1.params|] && m2.params == m2.params[..|m2.params|];
    return true;
  }

  // ---- Parsing --------------------------------------------------------------------

  /** Moves the next word of `input` to the end of `output`; false at the end of input. */
  method ParseWord(output: Buffer, input: Buffer) returns (ok: bool)
    requires output != input && output.Valid() && input.Valid()
    modifies output, input
    ensures output.Valid() && input.Valid()
    ensures ok <==> old(input.Contents()) != ""
    ensures !ok ==> output.Contents() == old(output.Contents())
    ensures ok ==> output.Contents() == old(output.Contents()) + TakeWord(old(input.Contents())).0
    ensures ok ==> input.Contents() == TakeWord(old(input.Contents())).1
  {
    ghost var text := input.Contents();
    var c := input.ReadByte();
    if c.None? { return false; }
    assert text == [c.value] + input.Contents();
    if c.value == ':' {
      CopyToEnd(output, input);
    } else {
      CopyToSpace(output, input, c.value);
    }
    return true;
  }

  /** The loop for a word that started with ':'. */
  method CopyToEnd(output: Buffer, input: Buffer)
    requires output != input && output.Valid() && input.Valid()
    modifies output, input
    ensures output.Valid() && input.Valid() && input.Contents() == ""
    ensures output.Contents() == old(output.Contents()) + old(input.Contents())
  {
    var c := input.ReadByte();
    while c.Some?
      invariant output.Valid() && input.Valid()
      invariant output.Contents() + (Pending(c) + input.Contents()) ==
                old(output.Contents()) + old(input.Contents())
      invariant c.None? ==> input.Contents() == ""
      decreases |input.Contents()|, c.Some?
    {
      ghost var before, rest := output.Contents(), input.Contents();
      assert before + ([c.value] + rest) == before + [c.value] + rest;
      output.WriteByte(c.value);
      c := input.ReadByte();
    }
  }

  /** The loop for any other word; `first` is its first byte, already read. */
  method CopyToSpace(output: Buffer, input: Buffer, first: char)
    requires output != input && output.Valid() && input.Valid()
    requires first != ':'
    modifies output, input
    ensures output.Valid() && input.Valid()
    ensures var text := [first] + old(input.Contents());
            output.Contents() == old(output.Contents()) + TakeWord(text).0
            && input.Contents() == TakeWord(text).1
  {
    var c := Some(first);
    ghost var text, i := [first] + input.Contents(), 0;
    while c.Some? && c.value != ' '
      invariant output.Valid() && input.Valid()
      invariant i <= |text| && output.Contents() == old(output.Contents()) + text[..i]
      invariant Pending(c) + input.Contents() == text[i..]
      invariant c.None? ==> input.Contents() == ""
      invariant ' ' !in text[..i]
      decreases |text| - i
    {
      assert text[i..][0] == c.value && text[i..][1..] == input.Contents();
      assert text[..i + 1] == text[..i] + [c.value];
      output.WriteByte(c.value);
      c := input.ReadByte();
      i := i + 1;
    }
    assert c.Some? ==> text[i..][0] == ' ' && text[i..][1..] == input.Contents();
    BeforeIs(text, ' ', i);
  }

  ghost function Pending(c: Option<char>): string
  {
    match c
    case Some(x) => [x]
    case None => ""
  }

  /** The parser proper; None where it runs out of input. */
  method ParseBuffer(input: Buffer) returns (result: Option<Message>)
    requires input.Valid()
    modifies input
    ensures result == ParseLine(old(input.Contents()))
  {
    ghost var line := input.Contents();
    var prefix := "";
    var c := input.ReadByte();
    if c.None? { return None; }
    if c.value == ':' {
      var output := new Buffer("");
      var ok := ParseWord(output, input);
      if !ok { return None; }
      prefix := output.String();
      assert prefix == TakeWord(line[1..]).0;
    } else {
      input.UnreadByte();
      assert input.Contents() == line;
    }
    assert ParseLine(line) == ParseAfterPrefix(prefix, input.Contents());
    result := ParseCommand(prefix, input);
  }

  /** The parser after the prefix: a command and its parameters. */
  method ParseCommand(prefix: string, input: Buffer) returns (result: Option<Message>)
    requires input.Valid()
    modifies input
    ensures result == ParseAfterPrefix(prefix, old(input.Contents()))
  {
    ghost var text := input.Contents();
    var output := new Buffer("");
    var ok := ParseWord(output, input);
    if !ok { return None; }
    var command := output.String();
    output.Reset();
    assert command == TakeWord(text).0;
    var params := CollectWords(output, input);
    return Some(Message(prefix, ToCommand(command), params));
  }

  /** The loop that reads parameters until the input ends. */
  method CollectWords(output: Buffer, input: Buffer) returns (params: seq<string>)
    requires output != input && output.Valid() && input.Valid() && output.Contents() == ""
    modifies output, input
    ensures params == ParseParams(old(input.Contents()))
  {
    params := [];
    ghost var rest := input.Contents();
    var ok := ParseWord(output, input);
    while ok
      invariant output.Valid() && input.Valid()
      invariant ok ==> rest != "" && output.Contents() == TakeWord(rest).0
                       && input.Contents() == TakeWord(rest).1
      invariant !ok ==> rest == ""
      invariant params + ParseParams(rest) == ParseParams(old(input.Contents()))
      decreases |rest|, ok
    {
      var param := output.String();
      params := params + [param];
      output.Reset();
      rest := input.Contents();
      ok := ParseWord(output, input);
    }
  }

  /** The line reader over a stream. */
  class Reader {
    var stream: string

    constructor (stream: string)
      ensures this.stream == stream
    {
      this.stream := stream;
    }

    method Next() returns (result: ReadResult)
      modifies this
      ensures result == ReadMessage(old(stream)).0
      ensures stream == ReadMessage(old(stream)).1
    {
      if stream == "" { return EndOfInput; }
      var n := Before(stream, '\n');
      if n >= MAX_MESSAGE_LEN { return TooLong; }
      var buffer := new Buffer(DropCR(stream[..n]));
      stream := if n < |stream| then stream[n + 1..] else "";
      var m := ParseBuffer(buffer);
      if m.None? { return EndOfInput; }
      return Read(m.value);
    }
  }

  /** `ParseMessage`: the text must begin with a message, and the read after that report the
      end of the input, which is not to say that no message follows; see
      `Codec.AcceptedExactly`. */
  method ParseText(input: string) returns (result: Option<Message>)
    ensures result == ParseMessage(input)
  {
    var r := new Reader(input);
    var first := r.Next();
    if !first.Read? { return None; }
    var second := r.Next();
    if second != EndOfInput { return None; }
    return Some(first.message);
  }
}

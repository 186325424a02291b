/** The wire format of messages (section 2.3.1 of RFC 2812): what printing and parsing
    compute, and exactly when they undo each other. */
module Codec {
  import opened Text
  import opened Messages

  const MAX_MESSAGE_LEN := 512  // including CR LF

  // ---- Printing -------------------------------------------------------------------

  function PrefixText(prefix: string): string
  {
    if prefix == "" then "" else ":" + prefix + " "
  }

  function LastText(param: string): string
  {
    if ' ' in param then ":" + param else param
  }

  /** The parameters as written after the space that follows the command. */
  function Joined(params: seq<string>): string
    requires params != []
  {
    if |params| == 1 then LastText(params[0]) else params[0] + " " + Joined(params[1..])
  }

  function ParamsText(params: seq<string>): string
  {
    if params == [] then "" else " " + Joined(params)
  }

  /** The message on one line, without the line end. */
  function Line(m: Message): string
  {
    PrefixText(m.prefix) + (Word(m.command) + ParamsText(m.params))
  }

  function Print(m: Message): string
  {
    Line(m) + "\r\n"
  }

  /** What a line is made of, in words: the prefix behind a colon, the command, and the
      parameters, the last behind a colon if it has a space in it. */
  function WordsOf(m: Message): seq<string>
  {
    (if m.prefix == "" then [] else [":" + m.prefix])
    + [Word(m.command)]
    + (if m.params == [] then []
       else
         var last := m.params[|m.params| - 1];
         m.params[..|m.params| - 1] + [if ' ' in last then ":" + last else last])
  }

  lemma LineIsWords(m: Message)
    ensures Line(m) == Text.Join(WordsOf(m), ' ')
  {
    var words := WordsOf(m);
    var tail := if m.prefix == "" then words else words[1..];
    assert tail[0] == Word(m.command);
    if m.params != [] {
      JoinedIsWords(m.params);
      assert tail[1..] == m.params[..|m.params| - 1] + [LastText(m.params[|m.params| - 1])];
      assert " " + Joined(m.params) == [' '] + Joined(m.params);
      assert Word(m.command) + ([' '] + Joined(m.params)) == Word(m.command) + [' '] + Joined(m.params);
    }
    assert Text.Join(tail, ' ') == Word(m.command) + ParamsText(m.params);
    if m.prefix != "" {
      assert ":" + m.prefix + [' '] + Text.Join(tail, ' ') == PrefixText(m.prefix) + Text.Join(tail, ' ');
    }
  }

  lemma {:induction false} JoinedIsWords(params: seq<string>)
    requires params != []
    ensures Joined(params) == Text.Join(params[..|params| - 1] + [LastText(params[|params| - 1])], ' ')
  {
    var words := params[..|params| - 1] + [LastText(params[|params| - 1])];
    if |params| > 1 {
      JoinedIsWords(params[1..]);
      assert words[1..] == params[1..][..|params| - 2] + [LastText(params[|params| - 1])];
      assert params[0] + " " + Joined(params[1..]) == params[0] + [' '] + Joined(params[1..]);
    }
  }

  // ---- Parsing --------------------------------------------------------------------

  /** How many bytes come before the first `c`. */
  function Before(s: string, c: char): (n: nat)
    ensures n <= |s| && c !in s[..n]
    ensures n < |s| ==> s[n] == c
    ensures n == |s| <==> c !in s
  {
    if s == "" || s[0] == c then 0
    else
      var n := Before(s[1..], c);
      assert s[..n + 1] == [s[0]] + s[1..][..n];
      n + 1
  }

  /** The next word and what is left after it; a leading ':' takes the whole line. */
  function TakeWord(s: string): (string, string)
    requires s != ""
  {
    if s[0] == ':' then (s[1..], "")
    else
      var n := Before(s, ' ');
      (s[..n], if n < |s| then s[n + 1..] else "")
  }

  function ParseParams(s: string): seq<string>
    decreases |s|
  {
    if s == "" then [] else [TakeWord(s).0] + ParseParams(TakeWord(s).1)
  }

  function ParseAfterPrefix(prefix: string, s: string): Option<Message>
  {
    if s == "" then None
    else Some(Message(prefix, ToCommand(TakeWord(s).0), ParseParams(TakeWord(s).1)))
  }

  /** None where the parser runs out of bytes and reports the end of the input. */
  function ParseLine(line: string): Option<Message>
  {
    if line == "" then None
    else if line[0] != ':' then ParseAfterPrefix("", line)
    else if line[1..] == "" then None
    else ParseAfterPrefix(TakeWord(line[1..]).0, TakeWord(line[1..]).1)
  }

  // ---- Reading lines --------------------------------------------------------------

  datatype ReadResult = Read(message: Message) | EndOfInput | TooLong

  function DropCR(line: string): string
  {
    if line != "" && line[|line| - 1] == '\r' then line[..|line| - 1] else line
  }

  /** One read from a stream and what is left. The line scanner's buffer holds
      MAX_MESSAGE_LEN bytes: a line must leave room for its newline. A line that does
      not parse is reported as the end of the input. */
  function ReadMessage(stream: string): (ReadResult, string)
  {
    if stream == "" then (EndOfInput, "")
    else
      var n := Before(stream, '\n');
      if n >= MAX_MESSAGE_LEN then (TooLong, stream)
      else
        var rest := if n < |stream| then stream[n + 1..] else "";
        match ParseLine(DropCR(stream[..n]))
        case Some(m) => (Read(m), rest)
        case None => (EndOfInput, rest)
  }

  /** Parses a text that begins with a message: a second read must report the end of the
      input. */
  function ParseMessage(input: string): Option<Message>
  {
    match ReadMessage(input)
    case (Read(m), rest) => if ReadMessage(rest).0 == EndOfInput then Some(m) else None
    case _ => None
  }

  // ---- Exactly which messages survive printing and parsing ---------------------------

  /** A word that is read back as it was written. */
  predicate Plain(word: string)
  {
    ' ' !in word && (word != "" ==> word[0] != ':')
  }

  predicate CleanParams(params: seq<string>)
  {
    params != [] ==>
      var last := params[|params| - 1];
      && last != "" && (last[0] == ':' ==> ' ' in last)
      && forall i | 0 <= i < |params| - 1 :: Plain(params[i])
  }

  predicate CleanLine(m: Message)
  {
    && Plain(m.prefix)
    && Plain(Word(m.command))
    && (Word(m.command) != "" || m.params != [])
    && CleanParams(m.params)
  }

  predicate NoNewline(m: Message)
  {
    && '\n' !in m.prefix
    && '\n' !in Word(m.command)
    && forall i | 0 <= i < |m.params| :: '\n' !in m.params[i]
  }

  predicate InDomain(m: Message)
  {
    Canonical(m.command) && NoNewline(m) && CleanLine(m) && |Print(m)| <= MAX_MESSAGE_LEN
  }

  lemma {:induction false} BeforeIs(s: string, c: char, n: nat)
    requires n <= |s| && c !in s[..n] && (n < |s| ==> s[n] == c)
    ensures Before(s, c) == n
  {
    if n > 0 {
      assert s[0] == s[..n][0];
      assert s[1..][..n - 1] == s[1..n] && forall x | x in s[1..n] :: x in s[..n];
      BeforeIs(s[1..], c, n - 1);
    }
  }

  lemma TakePlainWord(a: string, b: string)
    requires Plain(a)
    ensures TakeWord(a + " " + b) == (a, b)
    ensures a != "" ==> TakeWord(a) == (a, "")
  {
    var s := a + " " + b;
    assert s[..|a|] == a && s[|a| + 1..] == b;
    BeforeIs(s, ' ', |a|);
    assert s[0] == if a == "" then ' ' else a[0];
    if a != "" {
      assert a[..|a|] == a;
      BeforeIs(a, ' ', |a|);
    }
  }

  /** A word with a space in it is cut short, whatever follows. */
  lemma TakeBrokenWord(a: string, b: string)
    requires ' ' in a
    ensures a[0] != ':' ==> TakeWord(a + b).0 != a
    ensures a[0] == ':' ==> TakeWord(a + b).1 == ""
  {
    var n := Before(a, ' ');
    assert (a + b)[0] == a[0];
    assert (a + b)[..n] == a[..n] && (a + b)[n] == a[n];
    BeforeIs(a + b, ' ', n);
  }

  lemma {:induction false} ParamsReadBack(params: seq<string>)
    requires params != []
    ensures ParseParams(Joined(params)) == params <==> CleanParams(params)
  {
    if |params| == 1 {
      LastReadsBack(params[0]);
      assert params == [params[0]];
    } else {
      var rest := Joined(params[1..]);
      WordReadsBack(params[0], rest);
      if Plain(params[0]) {
        ParamsReadBack(params[1..]);
        assert params == [params[0]] + params[1..];
        CleanTail(params);
      }
    }
  }

  lemma LastReadsBack(p: string)
    ensures ParseParams(Joined([p])) == [p] <==> p != "" && (p[0] == ':' ==> ' ' in p)
  {
    if ' ' in p {
      assert (":" + p)[1..] == p;
      assert ParseParams("") == [];
      assert [p] + [] == [p];
    } else if p != "" {
      LastWord(p);
    }
  }

  /** A word before others is read back if it is plain; if not, either it is cut short or
      it takes all the rest with it. */
  lemma WordReadsBack(p: string, rest: string)
    ensures Plain(p) ==> ParseParams(p + " " + rest) == [p] + ParseParams(rest)
    ensures !Plain(p) ==> ParseParams(p + " " + rest) != []
                          && (ParseParams(p + " " + rest)[0] != p || |ParseParams(p + " " + rest)| == 1)
  {
    var text := p + " " + rest;
    if Plain(p) {
      TakePlainWord(p, rest);
    } else {
      assert text == p + (" " + rest);
      if ' ' in p { TakeBrokenWord(p, " " + rest); }
      assert text[0] == p[0];
      assert ParseParams("") == [];
    }
  }

  lemma CleanTail(params: seq<string>)
    requires |params| > 1 && Plain(params[0])
    ensures CleanParams(params) <==> CleanParams(params[1..])
  {
    var tail := params[1..];
    assert forall i | 1 <= i < |params| :: params[i] == tail[i - 1];
  }

  lemma LastWord(p: string)
    requires p != "" && ' ' !in p
    ensures ParseParams(p) == [p] <==> p[0] != ':'
  {
    var word := if p[0] == ':' then p[1..] else p;
    if p[0] != ':' { TakePlainWord(p, ""); }
    assert TakeWord(p) == (word, "");
    assert ParseParams(p) == [word] + ParseParams("");
    assert ParseParams(p) == [word];
  }

  lemma CommandReadsBack(prefix: string, m: Message)
    requires prefix == m.prefix
    ensures ParseAfterPrefix(prefix, Word(m.command) + ParamsText(m.params)) == Some(m) <==>
            Canonical(m.command) && Plain(Word(m.command))
            && (Word(m.command) != "" || m.params != []) && CleanParams(m.params)
  {
    var w, text := Word(m.command), Word(m.command) + ParamsText(m.params);
    assert ParseParams("") == [];
    if m.params == [] {
      assert text == w;
      if Plain(w) && w != "" {
        TakePlainWord(w, "");
      } else if w != "" {
        if ' ' in w { TakeBrokenWord(w, ""); assert w + "" == w; }
      }
    } else {
      var rest := Joined(m.params);
      assert text == w + " " + rest;
      if Plain(w) {
        TakePlainWord(w, rest);
        ParamsReadBack(m.params);
      } else {
        assert text[0] == w[0];
        if ' ' in w { TakeBrokenWord(w, ParamsText(m.params)); }
      }
    }
  }

  lemma LineReadsBack(m: Message)
    ensures ParseLine(Line(m)) == Some(m) <==> Canonical(m.command) && CleanLine(m)
  {
    hide Canonical, ParseLine, ParseAfterPrefix, CleanParams, ParamsText, Word;
    CommandReadsBack(m.prefix, m);
    if m.prefix == "" {
      UnprefixedReadsBack(m);
    } else {
      var tail := Word(m.command) + ParamsText(m.params);
      PrefixReadsBack(m.prefix, tail);
      assert Line(m) == ":" + (m.prefix + " " + tail);
    }
  }

  lemma UnprefixedReadsBack(m: Message)
    requires m.prefix == ""
    ensures var tail := Word(m.command) + ParamsText(m.params);
            ParseLine(Line(m)) == Some(m) <==>
            Plain(Word(m.command)) && ParseAfterPrefix("", tail) == Some(m)
  {
    var tail := Word(m.command) + ParamsText(m.params);
    assert Line(m) == tail;
    CommandReadsBack("", m);
    if tail != "" && tail[0] == ':' {
      assert Word(m.command) != "" && Word(m.command)[0] == ':';
      ColonFirst(tail);
    }
  }

  lemma PrefixReadsBack(prefix: string, tail: string)
    requires prefix != ""
    ensures Plain(prefix) ==>
              ParseLine(":" + (prefix + " " + tail)) == ParseAfterPrefix(prefix, tail)
    ensures !Plain(prefix) && ParseLine(":" + (prefix + " " + tail)).Some? ==>
              ParseLine(":" + (prefix + " " + tail)).value.prefix != prefix
  {
    var after := prefix + " " + tail;
    assert (":" + after)[1..] == after;
    if Plain(prefix) {
      TakePlainWord(prefix, tail);
    } else {
      assert after[0] == prefix[0];
      if ' ' in prefix {
        TakeBrokenWord(prefix, " " + tail);
        assert after == prefix + (" " + tail);
      }
    }
  }

  /** A line that starts with ':' never parses to a message without a prefix and with
      a command starting with ':'. */
  lemma ColonFirst(line: string)
    requires line != "" && line[0] == ':'
    ensures ParseLine(line).Some? && ParseLine(line).value.prefix == "" ==>
              line != Word(ParseLine(line).value.command) + ParamsText(ParseLine(line).value.params)
  {
    if ParseLine(line).Some? {
      ParsingNeverGrowsTail(TakeWord(line[1..]).1);
    }
  }

  // ---- Parsing never makes a message longer ------------------------------------------

  lemma {:induction false} ParamsNeverGrow(s: string)
    requires s != ""
    ensures |Joined(ParseParams(s))| <= |s|
    decreases |s|
  {
    var (word, rest) := TakeWord(s);
    assert ParseParams("") == [];
    if rest == "" {
      assert ParseParams(s) == [word];
    } else {
      ParamsNeverGrow(rest);
      assert ParseParams(s)[1..] == ParseParams(rest);
    }
  }

  lemma ParsingNeverGrowsTail(s: string)
    requires s != ""
    ensures |Word(ToCommand(TakeWord(s).0)) + ParamsText(ParseParams(TakeWord(s).1))| <= |s|
  {
    var rest := TakeWord(s).1;
    if rest != "" {
      ParamsNeverGrow(rest);
    }
  }

  lemma LineNeverGrows(line: string)
    ensures ParseLine(line).Some? ==> |Line(ParseLine(line).value)| <= |line|
  {
    if ParseLine(line) == None {
    } else if line[0] != ':' {
      ParsingNeverGrowsTail(line);
    } else {
      var (prefix, rest) := TakeWord(line[1..]);
      ParsingNeverGrowsTail(rest);
    }
  }

  /** A line is printed within its own length and that of CR LF, so what came with CR LF and
      fitted the reader fits it again. */
  lemma ParsingNeverGrows(line: string)
    ensures ParseLine(line).Some? ==>
              |Print(ParseLine(line).value)| <= |line| + 2 &&
              (|line| + 2 <= MAX_MESSAGE_LEN ==>
               |Print(ParseLine(line).value)| <= MAX_MESSAGE_LEN)
  {
    LineNeverGrows(line);
  }

  /** A bare newline leaves room for one byte more than CR LF does, and the reader takes
      either: all lines of a length print to what fits the reader exactly up to 510 bytes. */
  lemma FitsAgainExactly(n: nat)
    ensures n + 2 <= MAX_MESSAGE_LEN <==>
            forall line | |line| == n && ParseLine(line).Some? ::
              |Print(ParseLine(line).value)| <= MAX_MESSAGE_LEN
  {
    hide ParseLine, Line, ToCommand;
    if n + 2 <= MAX_MESSAGE_LEN {
      forall line | |line| == n && ParseLine(line).Some?
        ensures |Print(ParseLine(line).value)| <= MAX_MESSAGE_LEN
      {
        ParsingNeverGrows(line);
      }
    } else {
      var word := seq(n, _ => 'A');
      OneWordLine(word);
      assert |Print(ParseLine(word).value)| == n + 2;
    }
  }

  lemma OneWordLine(word: string)
    requires word != "" && Plain(word)
    ensures ParseLine(word) == Some(Message("", ToCommand(word), []))
    ensures Line(Message("", ToCommand(word), [])) == word
  {
    TakePlainWord(word, "");
    assert ParseParams("") == [];
    assert "" + (word + "") == word;
  }

  /** Such a line of 511 bytes is read, and what it prints to cannot be. */
  lemma LongestLineOutgrows()
    ensures var line := seq(511, _ => 'A');
            var m := Message("", ToCommand(line), []);
            && ReadMessage(line + "\n") == (Read(m), "")
            && |Print(m)| == 513 && ParseMessage(Print(m)) == None
  {
    hide ParseLine, ToCommand, TakeWord, Line;
    var line := seq(511, _ => 'A');
    OneWordLine(line);
    BeforeIs(line + "\n", '\n', 511);
    assert (line + "\n")[..511] == line && (line + "\n")[512..] == "";
    assert DropCR(line) == line;
    ParseOfPrinted(line);
  }

  // ---- The domain theorem ------------------------------------------------------------

  lemma ReadOfPrinted(line: string, rest: string)
    requires '\n' !in line
    ensures var stream := line + "\r\n" + rest;
            ReadMessage(stream) ==
            if |line| + 2 > MAX_MESSAGE_LEN then (TooLong, stream)
            else match ParseLine(line) case Some(m) => (Read(m), rest) case None => (EndOfInput, rest)
  {
    hide ParseLine;
    var stream := line + "\r\n" + rest;
    var n := |line| + 1;
    assert stream[..n] == line + "\r";
    BeforeIs(stream, '\n', n);
    assert DropCR(line + "\r") == line;
    assert stream[n + 1..] == rest;
  }

  lemma ParseOfPrinted(line: string)
    requires '\n' !in line
    ensures ParseMessage(line + "\r\n") ==
            if |line| + 2 <= MAX_MESSAGE_LEN then ParseLine(line) else None
  {
    hide ParseLine;
    ReadOfPrinted(line, "");
    assert line + "\r\n" + "" == line + "\r\n";
  }

  /** What `TestMessageDoesntGrow` looks for, that a message is not printed longer than the
      text it was parsed from, is so of all texts that end in CR LF, and of no other way
      to end a line. */
  lemma DoesntGrowExactly(end: string)
    requires end in {"\r\n", "\n", ""}
    ensures end == "\r\n" <==>
            forall line | '\n' !in line && ParseMessage(line + end).Some? ::
              |Print(ParseMessage(line + end).value)| <= |line + end|
  {
    hide ParseMessage, Print, ParseLine;
    if end == "\r\n" {
      forall line | '\n' !in line && ParseMessage(line + end).Some?
        ensures |Print(ParseMessage(line + end).value)| <= |line + end|
      {
        ParseOfPrinted(line);
        ParsingNeverGrows(line);
      }
    } else {
      PingGrows(end);
      assert '\n' !in "PING" && ParseMessage("PING" + end).Some?;
    }
  }

  /** Of all texts, only one without anything after its first line can grow, and only if that
      line does not end in CR LF. */
  lemma GrowsOnlyBare(text: string)
    ensures match ParseMessage(text)
            case None => true
            case Some(m) =>
              var n := Before(text, '\n');
              |Print(m)| > |text| ==> |text| <= n + 1 && !(n < |text| && n > 0 && text[n - 1] == '\r')
  {
    hide ParseLine, Print, ParseMessage, DropCR, Before;
    if ParseMessage(text).Some? {
      var line := text[..Before(text, '\n')];
      FirstLineParsed(text);
      ParsingNeverGrows(DropCR(line));
      DroppedCR(line);
    }
  }

  lemma FirstLineParsed(text: string)
    requires ParseMessage(text).Some?
    ensures ParseMessage(text) == ParseLine(DropCR(text[..Before(text, '\n')]))
  {
    hide ParseLine;
  }

  lemma DroppedCR(line: string)
    ensures |DropCR(line)| == |line| - if line != "" && line[|line| - 1] == '\r' then 1 else 0
  {
  }

  lemma PingGrows(end: string)
    requires end in {"\n", ""}
    ensures ParseMessage("PING" + end) == Some(Message("", ToCommand("PING"), []))
    ensures |Print(ParseMessage("PING" + end).value)| == 6
  {
    hide ParseLine, ToCommand, TakeWord, Line;
    var stream := "PING" + end;
    OneWordLine("PING");
    BeforeIs(stream, '\n', 4);
    assert stream[..4] == "PING" && DropCR("PING") == "PING";
    assert |stream| == 5 ==> stream[5..] == "";
  }

  lemma LineHasNewline(m: Message)
    ensures '\n' in Line(m) <==> !NoNewline(m)
  {
    JoinedHasNewline(m.params);
  }

  lemma {:induction false} JoinedHasNewline(params: seq<string>)
    ensures '\n' in ParamsText(params) <==> exists i | 0 <= i < |params| :: '\n' in params[i]
  {
    if |params| > 1 {
      JoinedHasNewline(params[1..]);
      assert '\n' in ParamsText(params) <==> '\n' in params[0] || '\n' in Joined(params[1..]);
      assert forall i | 1 <= i < |params| :: params[i] == params[1..][i - 1];
    }
  }

  lemma WordsKeepOutNewlines(s: string)
    requires s != "" && '\n' !in s
    ensures '\n' !in TakeWord(s).0 && '\n' !in TakeWord(s).1
  {
    var n := Before(s, ' ');
    assert forall x | x in s[1..] || x in s[..n] :: x in s;
    assert n < |s| ==> forall x | x in s[n + 1..] :: x in s;
  }

  lemma {:induction false} ParamsKeepOutNewlines(s: string)
    requires '\n' !in s
    ensures forall p | p in ParseParams(s) :: '\n' !in p
    decreases |s|
  {
    if s != "" {
      WordsKeepOutNewlines(s);
      ParamsKeepOutNewlines(TakeWord(s).1);
    }
  }

  lemma ParsedHasNoNewline(line: string)
    requires '\n' !in line
    ensures ParseLine(line).Some? ==> NoNewline(ParseLine(line).value)
  {
    if ParseLine(line) == None {
    } else if line[0] == ':' {
      WordsKeepOutNewlines(line[1..]);
      TailHasNoNewline(TakeWord(line[1..]).0, TakeWord(line[1..]).1);
    } else {
      TailHasNoNewline("", line);
    }
  }

  lemma TailHasNoNewline(prefix: string, s: string)
    requires s != "" && '\n' !in prefix && '\n' !in s
    ensures NoNewline(ParseAfterPrefix(prefix, s).value)
  {
    WordsKeepOutNewlines(s);
    ParamsKeepOutNewlines(TakeWord(s).1);
  }

  /** In front of anything else on a stream, too, a message is read back exactly if it is
      one of `InDomain`, and the reader is then left at what follows. */
  lemma FirstReadsBack(m: Message, rest: string)
    ensures ReadMessage(Print(m) + rest).0 == Read(m) <==> InDomain(m)
    ensures InDomain(m) ==> ReadMessage(Print(m) + rest).1 == rest
  {
    hide ParseLine, CleanLine, Canonical, Line;
    LineHasNewline(m);
    LineReadsBack(m);
    var stream := Print(m) + rest;
    if NoNewline(m) {
      ReadOfPrinted(Line(m), rest);
    } else {
      var n := Before(stream, '\n');
      ParsedHasNoNewline(DropCR(stream[..n]));
    }
  }

  /** Printing and then parsing gives the message back exactly for the messages of
      `InDomain`: no field holds a newline; prefix and command are plain words; the
      command is not empty unless parameters follow; all parameters but the last are
      plain words; the last is not empty and starts with ':' only if it also contains a
      space; and the printed form fits the line reader. */
  lemma RoundTrip(m: Message)
    ensures ParseMessage(Print(m)) == Some(m) <==> InDomain(m)
  {
    hide Print, InDomain;
    FirstReadsBack(m, "");
    assert Print(m) + "" == Print(m);
    assert ReadMessage("").0 == EndOfInput;
  }

  // ---- Texts with more in them ---------------------------------------------------------

  /** The first line of a text fits the reader and parses. */
  predicate BeginsWell(text: string)
  {
    var n := Before(text, '\n');
    text != "" && n < MAX_MESSAGE_LEN && ParseLine(DropCR(text[..n])).Some?
  }

  /** It fits the reader and does not parse, or there is no line. */
  predicate BeginsBlank(text: string)
  {
    var n := Before(text, '\n');
    text == "" || (n < MAX_MESSAGE_LEN && ParseLine(DropCR(text[..n])) == None)
  }

  /** `ParseMessage` takes the texts that begin with a message and have nothing, or a line
      that is none, next. What comes after that is never read. */
  lemma AcceptedExactly(first: string, rest: string)
    requires '\n' !in first
    ensures ParseMessage(first).Some? <==> BeginsWell(first)
    ensures ParseMessage(first + "\n" + rest).Some? <==>
            BeginsWell(first + "\n" + rest) && BeginsBlank(rest)
  {
    hide ParseLine;
    var text := first + "\n" + rest;
    assert first[..|first|] == first;
    BeforeIs(first, '\n', |first|);
    assert text[..|first|] == first && text[|first| + 1..] == rest;
    BeforeIs(text, '\n', |first|);
  }

  lemma WordIsTaken(word: string, rest: string)
    requires word != "" && Plain(word) && '\n' !in word && '\r' !in word && |word| < MAX_MESSAGE_LEN
    requires BeginsBlank(rest)
    ensures ParseMessage(word + "\n" + rest) == Some(Message("", ToCommand(word), []))
  {
    hide ParseLine, ToCommand, TakeWord, Line;
    var text := word + "\n" + rest;
    OneWordLine(word);
    BeforeIs(text, '\n', |word|);
    assert text[..|word|] == word && text[|word| + 1..] == rest && DropCR(word) == word;
  }

  /** So a text with two messages is taken, if a blank line is between them. */
  lemma TwoMessagesTaken()
    ensures ParseMessage("PING\n\nPONG\n") == Some(Message("", ToCommand("PING"), []))
    ensures ParseMessage("PONG\n").Some?
  {
    hide ParseMessage, ParseLine, ToCommand;
    NothingParses();
    BeforeIs("\nPONG\n", '\n', 0);
    assert "\nPONG\n"[..0] == "" && DropCR("") == "";
    WordIsTaken("PING", "\nPONG\n");
    WordIsTaken("PONG", "");
    assert "PING" + "\n" + "\nPONG\n" == "PING\n\nPONG\n" && "PONG" + "\n" + "" == "PONG\n";
  }

  lemma NothingParses()
    ensures ParseLine("") == None
  {
  }

  // ---- Streams of messages -------------------------------------------------------------

  /** All messages that can be read off a stream, and how the reading ended. */
  function ReadStream(stream: string): (seq<Message>, ReadResult)
    decreases |stream|
  {
    match ReadMessage(stream)
    case (Read(m), rest) => var (ms, end) := ReadStream(rest); ([m] + ms, end)
    case (end, _) => ([], end)
  }

  function PrintAll(ms: seq<Message>): string
  {
    if ms == [] then "" else Print(ms[0]) + PrintAll(ms[1..])
  }

  lemma NothingToRead()
    ensures ReadMessage("") == (EndOfInput, "")
  {
  }

  /** Messages written one after the other are read one after the other, and then the end of
      the input, exactly if each of them is in the domain. */
  lemma {:induction false} StreamReadsBack(ms: seq<Message>)
    ensures ReadStream(PrintAll(ms)) == (ms, EndOfInput) <==> forall m | m in ms :: InDomain(m)
  {
    hide InDomain, ReadMessage, Print;
    if ms == [] {
      NothingToRead();
    } else {
      FirstReadsBack(ms[0], PrintAll(ms[1..]));
      StreamReadsBack(ms[1..]);
      assert (forall m | m in ms :: InDomain(m)) <==> InDomain(ms[0]) && forall m | m in ms[1..] :: InDomain(m);
      var (read, end) := ReadStream(PrintAll(ms));
      if InDomain(ms[0]) {
        assert read == [ms[0]] + ReadStream(PrintAll(ms[1..])).0;
        assert read[1..] == ReadStream(PrintAll(ms[1..])).0 && ms == [ms[0]] + ms[1..];
      }
    }
  }
}

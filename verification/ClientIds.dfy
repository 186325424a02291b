/** Client identifiers: the `nick!user@host` form of section 2.3.1 of RFC 2812, with
    the optional membership flag that NAMES replies put before a nick. */
module ClientIds {
  import opened Text

  datatype ClientId = ClientId(flag: string, nick: string, user: string, host: string)

  const NOBODY := ClientId("", "", "", "")

  function Print(id: ClientId): string
  {
    if id.host == "" then id.flag + id.nick
    else id.flag + id.nick + (if id.user == "" then "" else "!" + id.user) + "@" + id.host
  }

  predicate HasFlag(text: string)
  {
    text != "" && (text[0] == '@' || text[0] == '+')
  }

  /** What the parser does after it has taken the flag off. */
  function ParseRest(flag: string, rest: string): Option<ClientId>
  {
    var nickHost := Split(rest, '@');
    if |nickHost| == 1 then
      Checked(ClientId(flag, rest, "", ""))
    else if |nickHost| == 2 then
      var nickUser := Split(nickHost[0], '!');
      if |nickUser| == 1 then Checked(ClientId(flag, nickHost[0], "", nickHost[1]))
      else if |nickUser| == 2 then Checked(ClientId(flag, nickUser[0], nickUser[1], nickHost[1]))
      else None
    else
      None
  }

  /** None stands for each of the parser's errors. */
  function Parse(text: string): Option<ClientId>
  {
    var flag := if HasFlag(text) then text[..1] else "";
    var rest := if HasFlag(text) then text[1..] else text;
    ParseRest(flag, rest)
  }

  /** The two checks the parser makes last. */
  function Checked(id: ClientId): Option<ClientId>
  {
    if id.nick == "" || (id.user != "" && id.host == "") then None else Some(id)
  }

  /** The identifiers that parsing can produce. */
  predicate WellFormed(id: ClientId)
  {
    && id.flag in {"", "@", "+"}
    && id.nick != "" && '@' !in id.nick && '@' !in id.user && '@' !in id.host
    && (id.flag == "" ==> id.nick[0] != '+')
    && (id.host == "" ==> id.user == "")
    && (id.host != "" ==> '!' !in id.nick && '!' !in id.user)
  }

  lemma SplitPair(s: string, sep: char)
    requires |Split(s, sep)| == 2
    ensures s == Split(s, sep)[0] + [sep] + Split(s, sep)[1]
    ensures sep !in Split(s, sep)[0] && sep !in Split(s, sep)[1]
  {
    SplitThenJoin(s, sep);
    assert Split(s, sep)[1..] == [Split(s, sep)[1]];
  }

  lemma ParsedRest(flag: string, rest: string)
    requires ParseRest(flag, rest).Some?
    requires flag in {"", "@", "+"} && (flag == "" ==> !HasFlag(rest))
    ensures WellFormed(ParseRest(flag, rest).value)
    ensures |Print(ParseRest(flag, rest).value)| <= |flag| + |rest|
  {
    var nickHost := Split(rest, '@');
    if |nickHost| == 2 {
      SplitPair(rest, '@');
      var nickUser := Split(nickHost[0], '!');
      if |nickUser| == 2 {
        SplitPair(nickHost[0], '!');
        assert rest[0] == nickHost[0][0] == nickUser[0][0];
      } else {
        assert rest[0] == nickHost[0][0];
      }
    }
  }

  lemma ParsedIsWellFormed(text: string)
    requires Parse(text).Some?
    ensures WellFormed(Parse(text).value)
    ensures |Print(Parse(text).value)| <= |text|
  {
    if HasFlag(text) {
      assert text[..1] == [text[0]];
      ParsedRest(text[..1], text[1..]);
    } else {
      ParsedRest("", text);
    }
  }

  lemma PrintedRest(id: ClientId)
    requires WellFormed(id)
    ensures ParseRest(id.flag, Print(id.(flag := ""))) == Some(id)
  {
    var text := Print(id.(flag := ""));
    assert "" + id.nick == id.nick;
    if id.host == "" {
      SplitWhole(id.nick, '@');
    } else if id.user == "" {
      assert text == id.nick + ['@'] + id.host;
      SplitInTwo(id.nick, id.host, '@');
      SplitWhole(id.nick, '!');
    } else {
      var nickUser := id.nick + ['!'] + id.user;
      assert text == nickUser + ['@'] + id.host by {
        assert "!" + id.user == ['!'] + id.user && id.nick + ("!" + id.user) == nickUser;
      }
      SplitInTwo(nickUser, id.host, '@');
      SplitInTwo(id.nick, id.user, '!');
    }
  }

  lemma PrintedParsesBack(id: ClientId)
    requires WellFormed(id)
    ensures Parse(Print(id)) == Some(id)
  {
    var text, rest := Print(id), Print(id.(flag := ""));
    assert text == id.flag + rest;
    assert rest[0] == id.nick[0];
    PrintedRest(id);
    if id.flag == "" {
      assert text == rest;
    } else {
      assert text[..1] == id.flag && text[1..] == rest;
    }
  }

  /** The two full forms, with a membership flag or without. */
  lemma FullForms(flag: string, nick: string, user: string, host: string)
    requires WellFormed(ClientId(flag, nick, user, host)) && host != ""
    ensures user != "" ==>
              Parse(flag + nick + "!" + user + "@" + host) == Some(ClientId(flag, nick, user, host))
    ensures user == "" ==> Parse(flag + nick + "@" + host) == Some(ClientId(flag, nick, "", host))
  {
    hide Parse, WellFormed;
    var id := ClientId(flag, nick, user, host);
    PrintedParsesBack(id);
    assert flag + nick + ("!" + user) + "@" + host == flag + nick + "!" + user + "@" + host;
    assert flag + nick + "" + "@" + host == flag + nick + "@" + host;
  }

  /** Printing and parsing are inverse exactly on the well-formed identifiers. */
  lemma ParseAfterPrint(id: ClientId)
    ensures Parse(Print(id)) == Some(id) <==> WellFormed(id)
  {
    if WellFormed(id) {
      PrintedParsesBack(id);
    } else if Parse(Print(id)).Some? {
      ParsedIsWellFormed(Print(id));
    }
  }

  /** Every accepted text has a normal form that is no longer and means the same. */
  lemma NormalForm(text: string)
    requires Parse(text).Some?
    ensures Parse(Print(Parse(text).value)) == Parse(text)
    ensures |Print(Parse(text).value)| <= |text|
  {
    ParsedIsWellFormed(text);
    PrintedParsesBack(Parse(text).value);
  }

  /** The nick a prefix names, if the prefix can be parsed. */
  function NickOf(prefix: string): (nick: Option<string>)
    ensures nick.Some? ==> nick.value != ""
  {
    match Parse(prefix)
    case Some(id) => Some(id.nick)
    case None => None
  }
}

/** Which nicks survive being listed in a NAMES reply. */
module Nicks {
  import opened Text
  import opened ClientIds
  import opened Views
  import opened Reconstruction

  /** No space, no '@', no blank at either end, and no '+' in front. */
  predicate Listable(nick: string)
  {
    nick == "" || (' ' !in nick && '@' !in nick && Trim(nick) == nick && nick[0] != '+')
  }

  lemma {:induction false} TrimNeverGrows(s: string)
    ensures |Trim(s)| <= |s| && (|Trim(s)| == |s| ==> Trim(s) == s)
  {
    if s != "" && IsBlank(s[0]) {
      TrimNeverGrows(s[1..]);
    } else if s != "" && IsBlank(s[|s| - 1]) {
      TrimNeverGrows(s[..|s| - 1]);
    }
  }

  lemma {:induction false} PartsAreShorter(s: string, sep: char)
    ensures forall part | part in Split(s, sep) :: |part| <= |s| && (sep in s ==> |part| < |s|)
  {
    if s != "" { PartsAreShorter(s[1..], sep); }
  }

  /** A token adds its own text as a nick only if there is nothing in it to take off. */
  lemma TokenNickIsToken(token: string)
    ensures |TokenNick(token)| <= |token|
    ensures TokenNick(token) == token && token != "" ==>
              '@' !in token && Trim(token) == token && token[0] != '+'
  {
    TrimNeverGrows(token);
    var text := Trim(token);
    if Parse(text).Some? {
      ParsedIsWellFormed(text);
      var id := Parse(text).value;
      assert |id.flag| + |id.nick| <= |Print(id)|;
      if HasFlag(text) { assert id.flag == text[..1]; }
    }
  }

  lemma ListableToken(nick: string)
    requires nick != "" && Trim(nick) == nick && '@' !in nick && nick[0] != '+'
    ensures TokenNick(nick) == nick
  {
    SplitWhole(nick, '@');
    assert Parse(nick) == Some(ClientId("", nick, "", ""));
  }

  /** The nicks that read back, as `Reconstruction` needs them to, are exactly these. The
      nicks of section 2.3.1 of RFC 2812 all are. */
  lemma ReadsBackExactly(nick: string)
    ensures ReadsBack(nick) <==> Listable(nick)
  {
    hide TokenNick;
    if ' ' in nick {
      var token := Split(nick, ' ')[0];
      assert token in Split(nick, ' ');
      PartsAreShorter(nick, ' ');
      TokenNickIsToken(token);
      assert TokenNick(token) in NamesIn(nick);
      assert TokenNick(token) != nick;
    } else {
      SplitWhole(nick, ' ');
      assert NamesIn(nick) == {TokenNick(nick)} by {
        assert nick in [nick] && forall token | token in [nick] :: token == nick;
      }
      assert ReadsBack(nick) <==> TokenNick(nick) == nick by {
        assert TokenNick(nick) in {TokenNick(nick)};
      }
      TokenNickIsToken(nick);
      if nick == "" {
        assert |TokenNick(nick)| == 0;
      } else if Listable(nick) {
        ListableToken(nick);
      }
    }
  }
}

/** IRC messages, the commands the proxy branches on, and their validation. */
module Messages {
  import opened Text

  const MAX_PARAMS := 15

  /** One constructor per command that some handler looks at, `Other` for the rest.
      `Word` and `ToCommand` below tie the constructors to the words on the wire. */
  datatype Command =
    | Pass | User | Nick | Ping | Pong | Quit | Motd
    | Join | Part | Kick | Privmsg | Notice
    | RplWelcome | RplYourhost | RplCreated | RplMyinfo
    | RplTopic | RplNamereply | RplEndofnames
    | RplMotdstart | RplMotd | RplEndofmotd
    | ErrNomotd | ErrNonicknamegiven | ErrErroneusnickname | ErrNicknameinuse | ErrNickcollision
    | ErrUnknowncommand | ErrNeedmoreparams
    | Other(word: string)

  datatype Message = Message(prefix: string, command: Command, params: seq<string>)
  {
    /** The parameter at `i`. The program's callers index the slice directly, and
        `Indexable` says when they may; the value past the end is never relied on. */
    function Param(i: nat): string
    {
      if i < |params| then params[i] else ""
    }
  }

  function Word(c: Command): string
  {
    match c
    case Pass => "PASS"
    case User => "USER"
    case Nick => "NICK"
    case Ping => "PING"
    case Pong => "PONG"
    case Quit => "QUIT"
    case Motd => "MOTD"
    case Join => "JOIN"
    case Part => "PART"
    case Kick => "KICK"
    case Privmsg => "PRIVMSG"
    case Notice => "NOTICE"
    case RplWelcome => "001"
    case RplYourhost => "002"
    case RplCreated => "003"
    case RplMyinfo => "004"
    case RplTopic => "332"
    case RplNamereply => "353"
    case RplEndofnames => "366"
    case RplMotdstart => "375"
    case RplMotd => "372"
    case RplEndofmotd => "376"
    case ErrNomotd => "422"
    case ErrNonicknamegiven => "431"
    case ErrErroneusnickname => "432"
    case ErrNicknameinuse => "433"
    case ErrNickcollision => "436"
    case ErrUnknowncommand => "421"
    case ErrNeedmoreparams => "461"
    case Other(word) => word
  }

  const NAMED_COMMANDS := 29

  function Number(c: Command): (i: nat)
    ensures i < NAMED_COMMANDS <==> !c.Other?
  {
    match c
    case Pass => 0
    case User => 1
    case Nick => 2
    case Ping => 3
    case Pong => 4
    case Quit => 5
    case Motd => 6
    case Join => 7
    case Part => 8
    case Kick => 9
    case Privmsg => 10
    case Notice => 11
    case RplWelcome => 12
    case RplYourhost => 13
    case RplCreated => 14
    case RplMyinfo => 15
    case RplTopic => 16
    case RplNamereply => 17
    case RplEndofnames => 18
    case RplMotdstart => 19
    case RplMotd => 20
    case RplEndofmotd => 21
    case ErrNomotd => 22
    case ErrNonicknamegiven => 23
    case ErrErroneusnickname => 24
    case ErrNicknameinuse => 25
    case ErrNickcollision => 26
    case ErrUnknowncommand => 27
    case ErrNeedmoreparams => 28
    case Other(_) => NAMED_COMMANDS
  }

  function Numbered(i: nat): (c: Command)
    ensures i < NAMED_COMMANDS <==> !c.Other?
  {
    if i == 0 then Pass
    else if i == 1 then User
    else if i == 2 then Nick
    else if i == 3 then Ping
    else if i == 4 then Pong
    else if i == 5 then Quit
    else if i == 6 then Motd
    else if i == 7 then Join
    else if i == 8 then Part
    else if i == 9 then Kick
    else if i == 10 then Privmsg
    else if i == 11 then Notice
    else if i == 12 then RplWelcome
    else if i == 13 then RplYourhost
    else if i == 14 then RplCreated
    else if i == 15 then RplMyinfo
    else if i == 16 then RplTopic
    else if i == 17 then RplNamereply
    else if i == 18 then RplEndofnames
    else if i == 19 then RplMotdstart
    else if i == 20 then RplMotd
    else if i == 21 then RplEndofmotd
    else if i == 22 then ErrNomotd
    else if i == 23 then ErrNonicknamegiven
    else if i == 24 then ErrErroneusnickname
    else if i == 25 then ErrNicknameinuse
    else if i == 26 then ErrNickcollision
    else if i == 27 then ErrUnknowncommand
    else if i == 28 then ErrNeedmoreparams
    else Other("")
  }

  /** The first named command from number `i` on that is written `word`. */
  function Lookup(word: string, i: nat): (c: Command)
    ensures Word(c) == word
    ensures c.Other? ==> c == Other(word)
    decreases NAMED_COMMANDS - i
  {
    if i >= NAMED_COMMANDS then Other(word)
    else if Word(Numbered(i)) == word then Numbered(i)
    else Lookup(word, i + 1)
  }

  /** The command written `word`. */
  function ToCommand(word: string): (c: Command)
    ensures Word(c) == word
  {
    hide Lookup;
    Lookup(word, 0)
  }

  /** The command is the one its word is read as. */
  predicate Canonical(c: Command)
  {
    ToCommand(Word(c)) == c
  }

  /** Every named command is; `Other` is where the word has no name of its own. */
  lemma CommandsAreWords(c: Command)
    ensures !c.Other? ==> Canonical(c)
  {
    hide Lookup;
    if !c.Other? {
      LookupFinds(c, 0);
    }
  }

  lemma {:induction false} LookupFinds(c: Command, i: nat)
    requires !c.Other? && i <= Number(c)
    ensures Lookup(Word(c), i) == c
    decreases NAMED_COMMANDS - i
  {
    hide Word, Number, Numbered;
    NumberedBack(c);
    if Word(Numbered(i)) == Word(c) {
      WordsDiffer(Numbered(i), c);
    } else {
      LookupFinds(c, i + 1);
    }
  }

  lemma NumberedBack(c: Command)
    ensures !c.Other? ==> Numbered(Number(c)) == c
  {
  }

  lemma WordsDiffer(c: Command, d: Command)
    requires !c.Other? && !d.Other? && Word(c) == Word(d)
    ensures c == d
  {
    var v, w := Word(c), Word(d);
    assert |v| >= 3 && v[0] == w[0] && v[1] == w[1] && v[2] == w[2];
  }

  /** Fewest parameters a command may carry; PART and KICK are not in the program's table. */
  function MinParams(c: Command): nat
  {
    match c
    case Pass | Join | Nick => 1
    case Privmsg | Notice | RplWelcome | RplYourhost | RplCreated => 2
    case RplTopic | RplEndofnames => 3
    case User | RplNamereply => 4
    case RplMyinfo => 5
    case _ => 0
  }

  /** None for a valid message, otherwise the error reply the program answers with. */
  function Validate(m: Message): (reply: Option<Message>)
    ensures reply.None? <==>
            m.command != Other("") && MinParams(m.command) <= |m.params| <= MAX_PARAMS
    ensures reply.Some? ==> reply.value.command.ErrUnknowncommand? || reply.value.command.ErrNeedmoreparams?
    ensures reply.Some? ==> |reply.value.params| == 1
    ensures reply.Some? && reply.value.command.ErrNeedmoreparams? <==>
            m.command != Other("") && |m.params| < MinParams(m.command)
  {
    if m.command == Other("") then
      Some(Message("", ErrUnknowncommand, ["Unknown command: \"\""]))
    else if |m.params| > MAX_PARAMS then
      Some(Message("", ErrUnknowncommand, ["Too many parameters (max 15)"]))
    else if |m.params| < MinParams(m.command) then
      Some(Message("", ErrNeedmoreparams, ["Not enough parameters"]))
    else
      None
  }

  predicate IsValid(m: Message) { Validate(m).None? }

  /** Validity, by the number of parameters each command needs. */
  lemma ValidExactly(m: Message)
    ensures IsValid(m) <==>
            && m.command != Other("") && |m.params| <= 15
            && (m.command in {Pass, Nick, Join} ==> |m.params| >= 1)
            && (m.command in {Privmsg, Notice, RplWelcome, RplYourhost, RplCreated} ==> |m.params| >= 2)
            && (m.command in {RplTopic, RplEndofnames} ==> |m.params| >= 3)
            && (m.command in {User, RplNamereply} ==> |m.params| >= 4)
            && (m.command == RplMyinfo ==> |m.params| >= 5)
  {
  }

  /** Every parameter that session tracking and the log read for this message is there.
      Where it is not, the Go program panics. */
  predicate Indexable(m: Message)
  {
    match m.command
    case Join | Part | Kick | Nick | Privmsg | Notice => |m.params| >= 1
    case RplTopic => |m.params| >= 3
    case RplNamereply => |m.params| >= 4
    case _ => true
  }

  /** Validation makes every indexed read safe except for PART and KICK without parameters. */
  lemma ValidationGuardsIndexing(m: Message)
    requires IsValid(m)
    ensures Indexable(m) <==> !((m.command.Part? || m.command.Kick?) && m.params == [])
  {
  }

  lemma PartIsUnguarded()
    ensures var m := Message("bob", Part, []); IsValid(m) && !Indexable(m)
  {
  }

  /** The commands `logMessage` stores. */
  predicate Loggable(c: Command)
  {
    c.Privmsg? || c.Notice? || c.Join? || c.Kick? || c.Part? || c.Nick?
  }
}

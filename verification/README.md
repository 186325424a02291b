# A verified model of IRC Idler

IRC Idler keeps a user's place on an IRC server while the user is away. It sits between one
client and one server, tracks what each of them has been told, logs what arrives while the
client is gone, and on the client's return shows it the state from before the log and replays
the log. This project models that daemon in Dafny, together with the library underneath it
(message codec, client identifiers, masks, filters, stores), and proves what they promise.

## How it is built

Every part that the program updates in place is a class or a method with loops, proved to
compute a function over values; the properties are then proved about those functions.

| files | what they hold |
|---|---|
| `Text`, `Messages`, `ClientIds` | string operations, messages and their validation, client identifiers |
| `Codec`, `Wire` | the wire format as functions with its theorems; the byte loops that compute it |
| `Masks`, `Filters` | the mask compiler; the token bucket and the pinging timer |
| `Views`, `Sessions` | session state as values; the session objects updated in place |
| `Logs`, `Ephemeral`, `Sql` | what a log is; the two stores that implement it |
| `Machine` | the proxy as a transition system: `Step` is one turn of its event loop |
| `Connections`, `Proxies` | the proxy as objects; `Proxies.Proxy` computes `Machine.Step` in place |
| `Safety` | phases of the connections, handshake agreement, containment of views, validity of all that is sent |
| `Conservation`, `Keepalive`, `Reconnecting` | no message lost or sent twice, lifetimes of connections, the repeated welcome |
| `Membership`, `Reconstruction`, `Nicks`, `Rejoining` | the users of a channel: before the log, through a replay, and as a rejoined client sees them |
| `Delivery` | what a client gets to hear: logs first in, first out; what registers it; what keeps it from rejoining |
| `Conversation` | for every event, what is written to the client and to the server |
| `Exceptions`, `Scenarios` | where the reconstruction fails, and exactly when; a run of the proxy for each way to fail |

What the outside decides is made explicit. The outcome of the n-th write is `Env.writes(n)`,
an arbitrary function; whether dialling the server works, every reading of the clock, and the
order in which Go happens to iterate over a channel's users are part of the event. The theorems
about runs hold for all of them. `Proxies.Proxy.Run` is the loop itself; its contract says that
what it does is the run of the transition system that answers the inputs it reads, one after the
other, up to the first that stops it.

A message counts as written, relayed or replayed if the write reports no failure. That is
relative to the writer: the program's own never reports one (`Wire.WriteTo`), so with it what is
sent to a client that is gone, but not yet known to be, counts as written.

Commands are a datatype with one constructor for each command that some handler looks at and
`Other(word)` for the rest; `Messages.CommandsAreWords` ties them to the words on the wire. One
`char` stands for one byte.

## Where the code and its documentation part

The model follows the code; these are results of the project, each with a lemma at an input
that fails and one that says for exactly which inputs the code does what is promised.

- A KICK takes its sender out of a channel, not its target (`Views.KickTakesVictim`,
  `Views.KickLeavesChannel`, `Views.KickOfAnother`).
- `PART` and `KICK` have no minimum number of parameters, so validation does not make the
  indexing in the session tracking safe for exactly these two (`Messages.ValidationGuardsIndexing`,
  `Messages.PartIsUnguarded`).
- Renames, quits and names that arrive while no registered client is there to be told are not
  kept (`Exceptions.MissedWhileAway`; runs in `Scenarios.LostWhileAway`,
  `Scenarios.LostWhileRegistering`).
- What is told to a registered client before it has rejoined overtakes the log
  (`Exceptions.LiveBeforeRejoin`, `Scenarios.ToldTooEarly`).
- The log and the session from before it outlive the server connection, and our leaving the
  channel (`Exceptions.StaleOnJoining`, `Scenarios.OldLogIsReplayed`,
  `Scenarios.LeftAndCameAgain`).
- A client that comes back and has heard anything about a channel before it asks for it has its
  JOIN ignored: it is told nothing, and the log stays (`Delivery.IgnoredIfStuck`,
  `Delivery.AnsweredExactly`, `Scenarios.JoinIsIgnored`, `Scenarios.JoinIsIgnoredInOrder`).
- A nick that a NAMES reply does not give back is shown as another one
  (`Rejoining.RejoinShowsExactly`, `Nicks.ReadsBackExactly`, `Scenarios.PlusIsGarbled`).
- A message that came with a bare newline is printed longer than it came, and the longest one
  no longer fits the reader (`Codec.DoesntGrowExactly`, `Codec.FitsAgainExactly`,
  `Codec.LongestLineOutgrows`). In the SQL store its row ends a replay with an error
  (`Sql.RowsOfReceived`, `Sql.LongRowStopsReplay`).
- A text with more than one message is parsed as its first if a blank line comes next
  (`Codec.AcceptedExactly`, `Codec.TwoMessagesTaken`).
- The SQL store gives back another message than it was given for some valid messages
  (`Sql.TableIsFaithful`, `Sql.SmileyIsLost`).
- `WriteTo` never reports that a write failed (`Wire.WriteTo`, `Wire.WrittenExactly`,
  `Wire.NothingIsWritten`).
- The rate limiter ignores its initial quota (`Filters.StartsAtInitQuota`,
  `Filters.NothingToStartWith`), and with a maximum of zero or less does not limit at all
  (`Filters.BoundedExactlyWithQuota`, `Filters.NoQuotaNoLimit`).
- A wildcard does not match a newline after compilation (`Masks.ToRegexp`,
  `Masks.NewlineIsNotADot`).

## Model

| member | source | states |
|---|---|---|
| Messages.Validate | irc/validate.go:46-67 | a message is valid if and only if it has a command and between its command's minimum and 15 parameters; the reply to an invalid one is itself valid in form, need-more-params exactly for too few parameters and an unknown-command error otherwise |
| Messages.ValidExactly | irc/validate.go:18-32 | the number of parameters each command needs to be valid |
| Messages.ValidationGuardsIndexing | irc/validate.go:18-32 | validation makes every parameter read by session tracking and the log exist, except for PART and KICK without parameters, and only for these |
| Messages.PartIsUnguarded | irc/validate.go:18-32 | a PART without parameters is valid, and its first parameter is read |
| Messages.CommandsAreWords | irc/numeric_replies.go:15-18 | every named command is the one its word on the wire is read as |
| ClientIds.ParseAfterPrint | irc/clientid.go:27-89 | printing and then parsing gives a client identifier back if and only if it is one that parsing can produce, described field by field |
| ClientIds.NormalForm | irc/clientid.go:45-89 | every accepted text has a normal form, the printed result, that parses to the same identifier and is no longer |
| ClientIds.FullForms | irc/clientid.go:45-89 | nick!user@host and nick@host, with a membership flag or without, are read as just these parts |
| Codec.RoundTrip | irc/message.go:187-296 | printing and then parsing gives a message back if and only if no field holds a newline, prefix, command and all parameters but the last are plain words, the command is not empty unless parameters follow, the last parameter is not empty and starts with ':' only if it contains a space, and the line fits 512 bytes |
| Codec.LineIsWords | irc/message.go:117-134 | a line is its words with one space between them: the prefix behind a colon, the command, and the parameters, the last behind a colon if and only if it has a space in it |
| Codec.LineReadsBack | irc/message.go:232-268 | the same for one line, without the line reader |
| Codec.ParamsReadBack | irc/message.go:270-296 | a parameter list is read back if and only if it is clean in the sense above |
| Codec.ParseOfPrinted | irc/message.go:187-229 | a printed line without newlines is read back as that line exactly when it fits the reader's buffer with its CR LF |
| Codec.ParsingNeverGrows | irc/message.go:232-268 | whatever a line parses to prints within the length of the line and that of CR LF |
| Codec.DoesntGrowExactly | irc/message_test.go:95-112 | the promise that no message is printed longer than the text it was parsed from holds of all texts that end in CR LF, and fails of those that end in a bare newline or in nothing |
| Codec.GrowsOnlyBare | irc/message_test.go:95-112 | of all texts, only one with nothing after its first line, and that not ended by CR LF, can be printed longer than it was |
| Codec.FitsAgainExactly | irc/message.go:188-192 | all lines of a length print to what fits the reader if and only if that length is at most 510 |
| Codec.LongestLineOutgrows | irc/message.go:188-213 | 511 bytes and a bare newline are read, print to 513 bytes, and cannot be read again |
| Codec.StreamReadsBack | irc/message.go:195-213 | messages written one after the other are read back one after the other, and then the end of the input, if and only if each is in the domain |
| Codec.AcceptedExactly | irc/message.go:215-229 | a text is accepted if and only if its first line fits the reader and parses and what comes next is nothing or a line that fits and does not parse |
| Codec.TwoMessagesTaken | irc/message_test.go:114-121 | a text with two messages and a blank line between them is accepted |
| Wire.WriteTo | irc/message.go:108-134 | makes the writes of the printed form in order, goes on after one that fails, returns the number of bytes that went through and never an error |
| Wire.WrittenExactly | irc/message.go:110-115 | what went through is the printed form if and only if no write fell short, so the missing error is right exactly then |
| Wire.NothingIsWritten | irc/message.go:110-115 | a writer that takes nothing gets nothing of any message |
| Wire.Len | irc/message.go:160-179 | the length computed without printing is the length of the printed form |
| Wire.Eq | irc/message.go:144-157 | the parameter-by-parameter comparison decides equality |
| Wire.ParseWord | irc/message.go:274-296 | moves exactly the next word between the buffers and leaves the rest, in either of its two forms |
| Wire.ParseBuffer | irc/message.go:232-268 | the buffer-based parser computes the parse of the line, including where it runs out of input |
| Wire.Reader.Next | irc/message.go:187-213 | the line reader returns the next message, the end, or that the line is too long, and leaves the stream behind that line |
| Wire.ParseText | irc/message.go:216-229 | accepts text whose first read is a message and whose second reports the end, and nothing else |
| Masks.ToRegexp | irc/mask/mask.go:11-44 | the emitted pattern lies in the supported subset and, anchored, matches a string if and only if the wildcard semantics does and no wildcard has to take a newline; on newline-free strings the two agree |
| Masks.ItemsMeanMask | irc/mask/mask.go:23-43 | the items of the pattern match exactly the strings the mask matches without a wildcard on a newline, by induction over mask and string |
| Masks.EmissionReadsBack | irc/mask/mask.go:16-42 | the text emitted with lazily quoted chunks is read as exactly the intended literals, dots and stars |
| Masks.NewlineIsNotADot | irc/mask/mask.go:30-32 | the mask "?" matches a newline, the pattern "." does not |
| Filters.RateLimit | irc/filters/filters.go:19-43 | over every order of ticks and messages, the output is the input received so far, in order, and the quota left is that of the bucket, which `QuotaExactly` gives in closed form |
| Filters.WindowIsBounded | irc/filters/filters.go:10-18 | in every window of every run at most the maximum quota plus the ticks of the window is copied, and at zero quota nothing but a tick is received |
| Filters.QuotaExactly | irc/filters/filters.go:23-41 | the quota is the least that any window up to now leaves of the maximum, ticks added and messages taken away |
| Filters.CopiedExactly | irc/filters/filters.go:10-18 | the converse of the bound: a message is copied at once if and only if the source is not closed and the bound leaves room for it in every window that ends there |
| Filters.BoundedExactlyWithQuota | irc/filters/filters.go:19-43 | the bound holds of all windows of all runs if and only if the maximum quota is positive |
| Filters.NoQuotaNoLimit | irc/filters/filters.go:19-43 | with a maximum of zero or less any messages pass without a tick |
| Filters.StartsAtInitQuota | irc/filters/filters.go:10-20 | until any moment of any run no more than the initial quota and the ticks so far is copied, if and only if the maximum is positive and at most the initial quota |
| Filters.NothingToStartWith | irc/filters/filters.go:20 | with an initial quota of zero and a maximum of one a message is copied before any tick |
| Filters.AutoPing | irc/filters/filters.go:73-114 | forwards all but PONGs in order, sends one ping each time the timer runs out, disconnects exactly when it runs out twice with nothing in between, at the first such moment, and otherwise stops only when cancelled, be it waiting for a signal or for a receiver |
| Views.OneChannel | proxy/state/channel.go:43-59 | what a message does to one channel of a session depends on that channel alone, beyond whether we are leaving |
| Views.KickTakesVictim | proxy/state/channel.go:119-125 | a KICK takes the user it names out of the channel if and only if that user sent it, or neither is in the channel |
| Views.KickLeavesChannel | proxy/state/session.go:55-60 | the session leaves the channel with just the KICKs that name us if and only if the sender is us exactly when the named user is |
| Views.KickOfAnother | proxy/state/session.go:55-60 | when "op" kicks "bob", "op" loses the channel it is in and "bob" keeps the one it was kicked from |
| Views.SelfListedStep | proxy/state/session.go:51-66 | a message keeps our own nick listed in every channel held if and only if it is one of a stated set; our own renames always do |
| Views.SelfStaysListed | proxy/state/session.go:51-66 | our nick stays listed over any sequence of such messages |
| Views.FlagsByHistory | proxy/state/handshake.go:31-56 | until the handshake is done, its flags say if a user was given, a nick not refused since, and the end of the message of the day told |
| Views.DoneByHistory | proxy/state/handshake.go:21-29 | it is done if and only if at some moment all three were so |
| Views.UserByLastWord | proxy/state/channel.go:110-158 | after any messages, a user who is not renamed is in a channel we stay in if and only if the last message that says anything about that says so, or none does and it was there before |
| Views.RenameCarries | proxy/state/channel.go:148-157 | a rename carries whoever it is of along, in every channel, and nobody else |
| Views.TopicByLastWord | proxy/state/channel.go:47-49 | the topic of a channel we stay in is the last it was said to be |
| Sessions.Handshake.UpdateFromClient | proxy/state/handshake.go:31-41 | the flags after a client message |
| Sessions.Handshake.UpdateFromServer | proxy/state/handshake.go:43-56 | the flags after a server message |
| Sessions.ChannelState.Users | proxy/state/channel.go:90-96 | every user exactly once, in an order left open |
| Sessions.ChannelState.UpdateFromServer | proxy/state/channel.go:110-158 | the users after a message, nothing else changed |
| Sessions.ChannelMap.GetChannel | proxy/state/channel.go:28-33 | the existing state object or a fresh empty one, all other entries untouched |
| Sessions.ChannelMap.UpdateFromServer | proxy/state/channel.go:43-59 | the map of channels after a message, with the objects of known channels kept |
| Sessions.Session.UpdateFromServer | proxy/state/session.go:51-66 | handshake, channels and own nick after a message, including that we left |
| Logs.HoldsSinceLastClear | storage/storage.go:31-42 | after any use of a store a log holds exactly what was appended to it since it was last cleared, in order, whatever happened to other logs |
| Ephemeral.ChannelLog.LogMessage | storage/ephemeral/ephemeral.go:45-52 | appends to the named log of the store, through any handle |
| Ephemeral.ChannelLog.Clear | storage/ephemeral/ephemeral.go:54-57 | empties the named log and no other |
| Ephemeral.Drain | storage/ephemeral/ephemeral.go:59-75 | replaying to the end yields the log |
| Sql.ChannelLog.LogMessage | storage/sql/sql.go:53-59 | adds the printed message as the last row, or reports the error and leaves the table alone |
| Sql.ChannelLog.Clear | storage/sql/sql.go:77-80 | deletes the rows of the channel and no other, or reports the error and leaves the table alone |
| Sql.TableRefinesLogs | storage/sql/sql.go:53-80 | a table that stores given logs stores the right logs after each operation |
| Sql.TableStoresRun | storage/sql/sql.go:53-80 | after any use, from the empty table, it stores the logs of that use |
| Sql.SelectsById | storage/sql/sql.go:61-64 | in a table with increasing ids, what is selected for a channel is the texts of all its rows, by increasing id |
| Sql.TableIsFaithful | storage/sql/sql.go:53-106 | after any use, a replay returns exactly what was logged since the log was last cleared if and only if all of that is in the codec's domain |
| Sql.RowsOfReceived | storage/sql/sql.go:86-102 | the row of a message that came over the wire never reads as the end of the log: it yields a message if its printed form fits the reader, and an error if not |
| Sql.LongRowStopsReplay | storage/sql/sql.go:86-102 | a PRIVMSG of 511 bytes that is read and whose row a replay stops at with an error |
| Sql.Drain | storage/sql/sql.go:61-106 | yields the messages read back from the rows, in order, up to the first that does not read back, and says how it ended |
| Sql.FaithfulOnDomain | storage/sql/sql.go:53-106 | a replay returns the log as logged if and only if every message in it is in the codec's domain |
| Sql.SmileyIsLost | storage/sql/sql.go:53-59 | a valid message with last parameter ":)" comes back as another one |
| Connections.Connection.Shutdown | proxy/proxy.go:129-141 | an open connection becomes a blank closed one, a closed one is left alone |
| Connections.Connection.Setup | proxy/proxy.go:180-185 | an open connection with a fresh session and renewed deadlines |
| Proxies.Proxy.SendServer | proxy/proxy.go:202-215 | the state after a write to the server that may fail, as in Machine.SendServer |
| Proxies.Proxy.SendClient | proxy/proxy.go:218-236 | the state after a write to the client that may fail: both views advance or the client is dropped; state objects of kept channels stay the same |
| Proxies.Proxy.DropClient | proxy/proxy.go:637-644 | closes the client, and the server if its handshake is unfinished |
| Proxies.Proxy.ReplayLog | proxy/proxy.go:654-691 | the cursor loop computes the replay, clearing the log only at its end |
| Proxies.Proxy.RejoinChannel | proxy/proxy.go:461-509 | through two aliased channel states, the loop over the users computes the rejoin for the order they came in, each user once |
| Proxies.Proxy.HandleHandshakeMessage | proxy/proxy.go:312-394 | forwards, welcomes back or resets as the handshakes stand |
| Proxies.Proxy.HandleClientEvent | proxy/proxy.go:401-456 | the whole new state after any client message, invalid ones included |
| Proxies.Proxy.HandleServerEvent | proxy/proxy.go:512-634 | the whole new state after any server message, invalid ones included |
| Proxies.Proxy.CheckClientTimeout | proxy/proxy.go:296-309 | drops, pings or leaves the client's connection |
| Proxies.Proxy.OnNewClient | proxy/proxy.go:267-286 | boots the old client, sets up the new one and dials the server if need be, including when dialling fails |
| Proxies.Proxy.Turn | proxy/proxy.go:243-287 | one turn answers its input: on an open connection with the event of the same message and clock, on a closed one with nothing |
| Proxies.Proxy.Run | proxy/proxy.go:239-289 | what the loop does is the run of the transition system, from the old state to the new one, whose events answer the inputs in order up to and including the first that stops it; it ends safe if it started safe |
| Safety.SendClientKeepsSafe | proxy/proxy.go:218-236 | a write to the client restores agreement and keeps containment, whether it fails or not |
| Safety.StepKeepsSafe | proxy/proxy.go:239-289 | every event keeps: an open client implies an open server, an unfinished server handshake implies an open client at the same point of it, closed connections are blank, the client's view of each channel lies within that from before the log, all messages sent and stored are valid, the cached welcome can be repeated |
| Safety.RunsAreSafe | proxy/proxy.go:239-289 | the same in every state of every run, failures at any write included |
| Safety.ClientIsNeverAhead | proxy/state/handshake.go:7-28 | on every run no client has finished the handshake before the server, whichever of USER and NICK comes first |
| Conservation.StepBalances | proxy/proxy.go:512-721 | every event keeps the books of logged messages balanced, and equal to the history of what was written, a replay that breaks off included |
| Conservation.NothingIsLost | proxy/proxy.go:654-721 | over every run and for each message that belongs in a log: copies stored or arrived plus those sent by broken-off replays equal copies relayed, replayed or waiting; copies relayed or replayed, plus the JOINs that rejoins begin with, equal the copies written to clients; so none is lost, and without broken-off replays and introductions each was written, or waits, exactly once |
| Conservation.RelayedOrLogged | proxy/proxy.go:612-625 | a message from the server is relayed or logged, never both, and which is decided by a stated condition on the state before |
| Delivery.FirstInFirstOut | proxy/proxy.go:654-721 | over every run, a log holds the last of what it held and was given, in order, and all before that has been written to clients, in order |
| Delivery.RejoinIsSaid | proxy/proxy.go:461-509 | a client that survives a rejoin has been sent the introduction and then the whole log, in order and nothing else, and the log is empty |
| Delivery.AwayIsLogged | proxy/proxy.go:694-721 | while no client is there, each log is given exactly the talk, joins, departures and renames that belong in it |
| Delivery.FlagsFollowDialogue | proxy/state/handshake.go:31-56 | over every run, the client's handshake is what its valid messages and what was written to it make of it |
| Delivery.RegisteredExactly | proxy/proxy.go:401-419 | over every run, a client is registered if and only if at some moment since it connected it had given a user and a nick not refused since, and been told the end of the message of the day |
| Conversation.StepAdds | proxy/proxy.go:239-289 | every event adds to what was written to the client its script, spelled out for each kind of event, up to the first failing write, and to what was written to the server exactly what is spelled out as well |
| Conversation.RunsSay | proxy/proxy.go:239-289 | so over every run: what was written to servers is the forwarded messages, the answers to PINGs, the requests for the message of the day and our own PINGs, in order |
| Conversation.PingIsAnswered | proxy/proxy.go:532-535 | the server's PING is answered by a PONG with its parameters, and nothing else it says is answered |
| Conversation.ShownAtOnce | proxy/proxy.go:539-602 | every valid message that is neither kept in logs nor part of the keepalive is the next thing an open client is written |
| Conversation.ForwardedExactly | proxy/proxy.go:421-455 | a registered client's valid message reaches the server if and only if it is no PING, PONG or QUIT and no JOIN of a channel that one side is in; its PING is answered |
| Conversation.MotdIsAsked | proxy/proxy.go:312-393 | at a finished server, the message that completes a client's USER and NICK is followed by the welcome and a request for the message of the day, and nothing a client says before it is registered is forwarded |
| Conversation.MotdCompletes | proxy/proxy.go:595-600 | the end of the message of the day then registers the client, and it is written what was logged for its nick |
| Conversation.RegistrationEnds | proxy/proxy.go:595-600 | the same over every run, for a client that has given a user and a nick not refused since |
| Conversation.OwnJoinComesFirst | proxy/proxy.go:461-469 | a client with a well-formed identity that survives a rejoin has first been told of a JOIN of its own |
| Conversation.OwnNickIsShown | proxy/proxy.go:461-509 | and unless the log takes it out of the channel it is among the users it sees, under whatever nick the log leaves it with |
| Delivery.AnsweredExactly | proxy/proxy.go:434-451 | a registered client's JOIN leads to a write if and only if its session does not have the channel |
| Delivery.IgnoredIfStuck | proxy/state/channel.go:43-52 | over every run, it is ignored if and only if, since the client connected, something written to it was about the channel and no later departure was its own |
| Delivery.ComesBackToServersUsers | proxy/proxy.go:434-451 | on every orderly run, a client that has heard nothing about the channel since it connected, joins it and stays connected sees exactly the server's users |
| Keepalive.KeepaliveBounds | proxy/proxy.go:296-309 | on every punctual run a connection still open was heard from at most four ping times ago, and a timeout drops it only after more than two |
| Keepalive.DoneIsNeverUndone | proxy/state/handshake.go:31-56 | a finished handshake is never undone while its connection stays open |
| Keepalive.ServerOutlivesClients | proxy/proxy.go:636-644 | a client that goes, quits or is replaced takes the server connection with it if and only if the server's handshake is unfinished, and otherwise leaves it unchanged |
| Keepalive.ConnectsExactly | proxy/proxy.go:267-286 | a client that connects is kept, with a fresh session, if and only if the server is there with its handshake finished, and then stays as it is, or can be dialled |
| Keepalive.EndsBoth | proxy/proxy.go:512-530 | both connections end with the server's going, our stopping, an invalid message from the server, or a welcome without an identity |
| Keepalive.EndsClient | proxy/proxy.go:401-412 | the client's ends with its going, an invalid message or its QUIT, and the server's with it unless its handshake is finished |
| Keepalive.EndsWithoutWelcome | proxy/proxy.go:341-349 | both end when a client registers at a finished server whose welcome was never seen |
| Reconnecting.WelcomeRepeatsServer | proxy/proxy.go:334-372 | the repeated welcome is the server's own, readdressed to the present nick: always for RPL_MYINFO, for the other two if and only if they had two parameters |
| Reconnecting.WelcomeBackCompletes | proxy/proxy.go:374-382 | if it all reaches the client, the client has been sent exactly the four messages in order and goes by the server's idea of its identity |
| Reconnecting.LastWordIs | proxy/proxy.go:562-563 | the word a welcome is searched for its identity is what follows its last space |
| Reconnecting.WelcomeTakesId | proxy/proxy.go:557-582 | a welcome whose last word is an identity gives it to us, on both sides, and its prefix is the server's from then on |
| Reconnecting.CacheByHistory | proxy/proxy.go:585-594 | over every run, what a welcome is repeated from is the last that the server said of each of its parts |
| Membership.ReplayedByVerdict | proxy/state/channel.go:110-125 | after a replay a user is in the channel if and only if the log's last word on it is a join, or it has none and the user was there before |
| Membership.CutReplayIsHarmless | proxy/proxy.go:230-233 | a replay broken off anywhere does not change where a complete one leads |
| Membership.CutReplayOfNickIsHarmless | proxy/proxy.go:705-712 | the same for the log kept under a nick, which holds what was said to it and renames into it |
| Membership.InterruptionsAreHarmless | proxy/proxy.go:230-233 | for any history of logging in either kind of log and of replays broken off anywhere, one complete replay at the end reaches the users that a single replay of everything would |
| Membership.OvertakingExactly | proxy/state/channel.go:110-158 | telling any message before a replay or after it comes to the same users if and only if the log does not contradict it, said for each command |
| Reconstruction.WellKeptIsKept | proxy/proxy.go:694-721 | the logs the proxy keeps are of one of the two kinds, unless a nick and a channel go by the same name |
| Reconstruction.StepSyncs | proxy/state/channel.go:65-72 | every orderly event keeps the reconstruction invariant of a channel |
| Membership.SupersededExactly | proxy/state/channel.go:110-158 | a message makes of given users what it makes of nobody if and only if it leaves none of them, said for each command |
| Reconstruction.RunsReconstruct | proxy/state/channel.go:65-72 | on every orderly run, departures of our own and new server connections included, whenever the server has us in the channel, the users known from before the log, replayed through the log, are exactly the users in the server's session |
| Nicks.ReadsBackExactly | proxy/state/channel.go:126-147 | a nick comes back from a NAMES reply as it is if and only if it is empty or has no space, no '@', no blank end and no '+' in front |
| Text.TrimExactly | proxy/state/channel.go:133 | trimming takes spaces, CRs and LFs off both ends, all of them and nothing else |
| Rejoining.RejoinEqualises | proxy/proxy.go:461-509 | a rejoin that the client survives leaves it with exactly the topic and users of the session from before the log, replay included, whoever the log renames |
| Rejoining.RejoinShowsExactly | proxy/proxy.go:461-509 | a client that survives a rejoin has been shown exactly the server's users if and only if all that is listed on the way is known from before the log or decided by the log |
| Reconstruction.WellFormedListsFit | proxy/proxy.go:461-509 | that is so if the server lists us and all nicks read back as themselves |
| Rejoining.RejoinShowsServersUsers | proxy/proxy.go:446-451 | on every orderly run, a client that rejoins and stays connected sees exactly the server's users of the channel |
| Rejoining.ShownUsersAreThere | proxy/state/channel.go:65-72 | on every orderly run a client in the channel is never shown a user who is not in it |
| Rejoining.JoinReachesServer | doc/protocol-hacks.md:41-48 | a registered client's JOIN reaches the server if and only if neither side is in the channel and the write works out; if the client is in it already nobody hears of it |
| Exceptions.MissedWhileAway | proxy/proxy.go:698-704 | a message about the users that is not passed on at once comes out right if and only if it is a join or departure, which is kept, or leaves the users as they are, said for each command, or is a rename into the name of the channel |
| Exceptions.LiveBeforeRejoin | proxy/proxy.go:612-625 | one that is passed on at once comes out right if and only if the log does not contradict it, said for each command |
| Exceptions.StaleOnJoining | proxy/proxy.go:67-69 | when we join a channel that the server does not have us in, again or on a new connection, the users come out right if and only if what is left from before leads to nobody but us, and does not end with our leaving if the join is passed on at once |
| Scenarios.LostWhileAway | proxy/proxy.go:698-704 | a run to a state where a quit, a rename or names are lost on a client that is away |
| Scenarios.LostWhileRegistering | proxy/proxy.go:621-625 | a run to one where a quit or a rename is lost on a client that registers |
| Scenarios.ToldTooEarly | proxy/proxy.go:612-625 | a run to one where a quit, a departure, a join, a rename or names told before the rejoin come out wrong |
| Scenarios.OldLogIsReplayed | proxy/proxy.go:67-69 | a run to one where we join on a new connection and the old log is replayed on top |
| Scenarios.LeftAndCameAgain | proxy/state/session.go:55-60 | a run to one where we leave and join on one connection, and somebody who was there before is still known |
| Scenarios.JoinIsIgnored | proxy/proxy.go:434-442 | a run to one where the JOIN of a client that came back is ignored, its log stays, and it sees the newcomer only |
| Scenarios.JoinIsIgnoredInOrder | proxy/proxy.go:434-442 | the same with nothing missed and the reconstruction in order |
| Scenarios.PlusIsGarbled | proxy/state/channel.go:136-146 | a run to one where a rejoin shows a user who is not there |

## Left out

- Sockets, TLS, dialling, the accept loop and the reading goroutines: an open connection is a source of events and writes that may fail.
- The drain of the message channel in `shutdown`: closing and blanking the connection is all that is modelled.
- The order between directly relayed and logged messages: the code does not keep one.
- The SQLite engine and `database/sql`: a table is its rows in the order of their automatic ids; an insert or delete may fail, a query does not.
- Go's full regexp engine and Unicode: literals, quoted metacharacters, '.' and a postfix '*' over ASCII are all that is emitted.
- `AutoPong`, the read-only shortcut of the filters package.
- The Sandstorm web interface, both command line programs, debug logging and the remaining numeric replies.
- Wire.Reader.Next: does not model another read after a line that was too long; every caller stops at the first error.
- Filters.AutoPing: does not model the closing of its input, on which the program dereferences nil.
- Proxies.Proxy.OnServerMessage: requires that PART and KICK carry a parameter, because the program panics where they do not.
- Reconstruction.RunsReconstruct: requires orderly traffic about the channel. Where that asks for the users to come out right after a message, a rejoin or our joining, the condition is the exact one (`Exceptions.MissedWhileAway`, `Exceptions.LiveBeforeRejoin`, `Rejoining.RejoinShowsExactly`, `Exceptions.StaleOnJoining`). Beyond that it excludes a nick with the name of the channel, a message that shows the channel to a client that still has a log of joins and departures to catch up with, our own departure told to a client that goes by another nick, the end of NAMES while a client registers or for a channel that we are not in and that has more than talk logged, and the replay of another log with renames in it.
- Rejoining.RejoinShowsServersUsers: requires that the client's session does not have the channel; `Delivery.IgnoredIfStuck` says when that is so, and what happens if not.
- Rejoining.RejoinEqualises: requires that the log, which may rename us, never takes us out of the channel; such a log takes the client out midway.
- Keepalive.KeepaliveBounds: requires a clock that does not go back and ticks at most a ping time apart.

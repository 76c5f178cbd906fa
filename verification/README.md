# IPK24 chat client: a verified model

A model, in Dafny 4.11, of a chat client that speaks the IPK24 course protocol over TCP or UDP, and proofs of what the client promises in every run. `dafny verify dfyconfig.toml` checks everything.

The program's objects (`FSMValidate`, `UDPMessageValidator`, `TCPMessageValidator`, `UDPProtocolHandler`, `TCPProtocolHandler`, `StreamHandler`) are classes with the program's fields and loops. Each method is proved equal to a function on values (`View() == F(old(View()))`), and the results are proved about those functions, over every sequence of events.

| file | contents |
|---|---|
| `Octets`, `Grammar`, `Common` | octets, splitting and joining, 16-bit identifiers; the lexical rules; what both transports share |
| `CommandLines` | the lines a user can type |
| `Session`, `SessionTable`, `Login` | the session Mealy machine and its runs; the same read by action; what logging in takes |
| `UdpRecords`, `UdpMachine`, `UdpHandler` | binary records; the UDP handler and loop as functions; the same as classes |
| `UdpDelivery`, `UdpReceipts`, `UdpSession` | stop-and-wait, budget, shutdown; what is confirmed; display, reply credit, no chat before login |
| `UdpEffects`, `UdpLines`, `UdpRuns` | what every datagram, line and other event does, by what can be observed, in every run |
| `UdpReplies`, `UdpRepeats`, `UdpFarewell` | which replies log in; what a repeated datagram does; what can follow a BYE |
| `UdpClient`, `TcpClient` | the client objects run from construction on, with the results as their contracts |
| `Channel` | the UDP client with a network that loses, duplicates and reorders, and a confirming peer |
| `TcpText`, `Framing`, `TcpMachine`, `TcpHandler`, `TcpSession`, `TcpReplies` | text lines; CR LF framing; the TCP handler and loop, as functions and as classes; its runs |
| `TcpEffects`, `TcpRuns` | what every frame, line and other event does, by what can be observed, in every run |
| `Agreement` | the two encodings of `/auth` compared |

## How the model is set up

- An octet is a character; nothing but the two inverse laws of the identifier coding needs it to be below 256. Character classes are those of the C locale.
- What a handler sends and shows is an append-only history. Originals (first transmissions) are a list of their own; retransmissions, incoming and outgoing CONFIRMs and session verdicts carry a stamp: how many originals had been sent before.
- An event is one outcome of `poll`: a datagram or chunk, a timeout, a line, end of input, the interrupt. A timeout matters only while the loop waits for a confirmation, because only then is one set.
- Where the program runs off the end of a value-returning function the model returns `Indeterminate`, and the loop goes on with an arbitrary value chosen by the event, for each TCP frame anew. So every statement about runs also covers what happens after a successful `/rename` (`TCPProtocolHandler.cpp:99-104`, `UDPProtocolHandler.cpp:460-465`). `OnlyRenameRunsOff` and `OnlyTheseFramesRunOff` say exactly when this arises.
- A datagram has at least one octet and a CONFIRM at least three (type `Datagram`): the program reads those without checking.

## Where the code and its documentation differ

- `README.md:79` of the repository says a message already received is "not processed again, only confirmed". `LeftAloneExactly` says for every run and every datagram when that is so of handler and event loop together (a change to what can no longer matter counts as a change). A retransmitted negative reply can end the session, at once (`RepeatedRefusalEndsTheSession`) or when the next answer comes (`RepeatedRefusalSpoilsLogin`), or stop the user's input (`RepeatedRefusalBlocksInput`).
- A reply naming 65535, which stands for "no reply awaited", is displayed every time it arrives, and a reply naming 0 is awaited before anything was asked (`ReplyShownExactly`, `ReplyToNobodyIsShown`). `UdpSession.ReplyCredit` therefore has a "+ 1" and leaves 65535 out; over TCP there is no such allowance.
- Logging in looks neither at the identifier a reply names nor at whether an AUTH was sent (`LoginExactly`, `UnaskedLoginExactly`), and a reply shown as a success need not log in (`ShownSuccessLogsInExactly`): it does not after an `/auth` mistyped once, over either transport (`TypoSpoilsLogin`).
- The client can go on sending requests after its BYE. `AskingAfterByeExactly` and `AskingAfterErrExactly` say exactly when: the BYE answers a new server ERR, nothing was waited for, and no error was put off. A BYE that is waited for is final (`NothingAfterAwaitedBye`).
- The display-name rule is documented as VCHAR, which Appendix B.1 of RFC 5234 defines without the space, but admits the space. `MsgRoundTripExactly` and `ErrRoundTripExactly` show a formed line reads back if and only if the name has none.
- `validate_reply` removes the last character of an empty string when a REPLY stops after IS (`TCPMessageValidator.cpp:175-180`); the model calls that reading `Broken`.

## Model

| member | source | states |
|---|---|---|
| Session.FSMValidate.CheckExpectedAction | FSMValidate.cpp:13-25 | an action is expected exactly when it is in the list or the list starts with ANY |
| Session.FSMValidate.ValidateAction | FSMValidate.cpp:39-194 | the three fields and the answer follow the Mealy machine, override first |
| SessionTable.LetThroughExactly | FSMValidate.cpp:39-194 | read by action: an armed machine lets through what is on its list; otherwise AUTH only in START and AUTH, JOIN and both MSGs and the server's BYE only in OPEN, REPLYs and the server's ERR only in AUTH and OPEN; all else is a warning or a fault |
| SessionTable.GoesExactly | FSMValidate.cpp:39-194 | which actions enter OPEN, AUTH and END, where a warning rolls back to, and that every fault enters ERROR |
| SessionTable.ArmsExactly | FSMValidate.cpp:39-194 | which actions, in which states, leave each list behind |
| SessionTable.SilentKeeps | FSMValidate.cpp:180-193 | what END and ERROR answer and keep once unrestricted |
| SessionTable.RemembersExactly | FSMValidate.cpp:63-194 | `previousState` is the state the latest unrestricted action met |
| Session.RunTame | FSMValidate.cpp:39-194 | over any submitted actions: `previousState` is set before a rollback can read it, ERROR is held only with BYE expected |
| Session.SubmittedActionsAreAnswered | FSMValidate.cpp:180-193 | no sequence of the handlers' actions reaches the branch with no return value |
| Session.UndefinedExactly | FSMValidate.cpp:180-187 | after any actions at all, the answer is undefined iff the machine is in ERROR, unrestricted, and the action is not BYE |
| Session.UndefinedIsReachable | FSMValidate.cpp:57-60 | a BYE submitted in ERROR lifts the restriction, so the undefined branch is reachable by other callers |
| Session.EndAbsorbsExactly | FSMValidate.cpp:189-193 | in END, every later answer to any actions is OVER iff ANY heads the list |
| Session.PartedExactly | FSMValidate.cpp:150-154 | after any submitted actions the machine is in END with ANY expected iff a BYE from the server was let through |
| Session.EndIsLeftExactly | FSMValidate.cpp:45-49 | after any submitted actions that led to END: if a BYE from the server was let through, END is final; otherwise a user action is refused, rolls back to the AUTH or OPEN the server's ERR met, and what that state allows passes again |
| Session.StepEarned | FSMValidate.cpp:39-61 | being in or rolling back to OPEN always rests on an accepted authorization followed by an accepted reply, and only then are JOIN and MSG allowed |
| Octets.SplitMessage | TCPMessageValidator.cpp:20-36 | the growing-word loop computes the split at spaces |
| Octets.JoinSplit | TCPMessageValidator.cpp:20-36 | joining the parts of any text gives it back |
| Octets.SplitJoin | TCPMessageValidator.cpp:20-36 | splitting the join of space-free words gives them back |
| Octets.Decode16InvertsEncode16 | UDPProtocolHandler.cpp:20-23 | every 16-bit identifier survives encoding |
| Octets.Encode16InvertsDecode16 | UDPProtocolHandler.cpp:86 | every pair of octets survives decoding |
| Octets.EncodeKeepsOrder | UDPMessageValidator.cpp:147-148 | identifiers in order are octet pairs in lexicographic order, and those below 256 have a zero first octet: the high octet goes first |
| Octets.DecodeKeepsOrder | UDPProtocolHandler.cpp:86 | the same of what is read from a datagram |
| Octets.UpperIsAscii | TCPMessageValidator.cpp:165-167 | upper-casing changes the 26 small letters and nothing else |
| Common.CommandAndArgument | UDPProtocolHandler.cpp:370-374 | a line is its space-free command, a space and its argument; a line without a space is both |
| Grammar.ValidateWord | UDPMessageValidator.cpp:55-82 | the id and secret loops decide length and alphabet |
| Grammar.ValidateContent | UDPMessageValidator.cpp:85-97 | the content loop decides 1 to 1400 printable octets |
| Grammar.ValidateName | UDPMessageValidator.cpp:100-113 | the name loop decides 1 to 20 printable octets, space included |
| Grammar.Alphabets | UDPMessageValidator.cpp:55-113 | by octet value: printable is %x20-7E, a word has letters, digits and %x2D |
| Grammar.Lengths | UDPMessageValidator.cpp:55-113 | identifiers and names up to 20, secrets up to 128, contents up to 1400 octets, none empty |
| UdpRecords.UDPMessageValidator.AuthorizeValidate | UDPMessageValidator.cpp:130-163 | accepts exactly valid triples, yields the record of id, name, secret, and takes the name over only then |
| UdpRecords.UDPMessageValidator.JoinValidate | UDPMessageValidator.cpp:166-192 | accepts exactly valid channels, yields the record of channel and display name |
| UdpRecords.UDPMessageValidator.MessageValidate | UDPMessageValidator.cpp:195-221 | accepts exactly valid content, yields the record of display name and content |
| UdpRecords.UDPMessageValidator.FormErrorMessage | UDPMessageValidator.cpp:22-35 | yields the ERR record of name and text |
| UdpRecords.UDPMessageValidator.ParseAndValidate | UDPMessageValidator.cpp:224-283 | returns the NUL-terminated words and succeeds exactly when number and form fit the message type |
| UdpRecords.ParseInvertsPrint | UDPMessageValidator.cpp:195-283 | any printed record gives back its identifier and NUL-free fields, and is accepted iff they are valid for the layout |
| UdpRecords.MessageRoundTrip | UDPMessageValidator.cpp:195-283 | a MSG or ERR with valid name and content is read back whole for every identifier |
| UdpRecords.PrintInvertsParse | UDPMessageValidator.cpp:224-237 | a readable datagram is the print of what was read, plus an ignored tail |
| UdpRecords.FieldsInvertTerminated | UDPMessageValidator.cpp:230-237 | NUL-splitting recovers any NUL-free words and drops an unterminated tail |
| UdpRecords.TerminatedInvertsFields | UDPMessageValidator.cpp:230-237 | every payload is terminated words plus a tail |
| UdpRuns.DatagramsDoRight | UDPProtocolHandler.cpp:123-346 | at any point of any live run, for every datagram but a CONFIRM: it is confirmed iff it is a BYE, an ERR of at least four octets, a REPLY with readable text, a MSG that is readable and let through, or of unknown type; its identifier is recorded iff it is a BYE, the awaited reply, or a new accepted MSG or ERR; exactly that line is shown; the session is asked iff it can be read; what is wrong with it is sent as ERR of name and text, or put off; an accepted ERR is answered with BYE; and what the loop is told |
| UdpRuns.ConfirmsDoRight | UDPProtocolHandler.cpp:84-121 | and for a CONFIRM: a wrong identifier has no effect; the right one ends the wait, sends BYE after an ERR, closes after a BYE, and starts the wait for the reply if one is due |
| UdpRuns.TypedLinesDoRight | UDPProtocolHandler.cpp:350-509 | a line is read iff the loop listens and it is not empty; `/exit` says BYE; with an error put off that error is sent; otherwise a request in good form that is granted leaves with its fields in order under the next identifier, a rename changes the name alone, and anything else is answered with its one notice |
| UdpRuns.TimeoutsDoRight | StreamHandler.cpp:70-86 | a timeout while a confirmation is awaited sends the latest original again, of whatever kind, and uses up one retry, or closes with none left; otherwise it does nothing |
| UdpRuns.DeparturesDoRight | StreamHandler.cpp:58-62 | the first interrupt, and the end of input while listening, send BYE and wait; nothing happens otherwise |
| UdpRuns.DatagramsRestoreRetries | StreamHandler.cpp:92-96 | a datagram restores the retries iff the loop no longer waits for a confirmation |
| UdpRuns.NameIsTheLatest | UDPMessageValidator.cpp:130-163 | in every run the display name is the one the latest accepted `/auth` or `/rename` gave |
| UdpRuns.GrantedExactly | FSMValidate.cpp:63-178 | in every run a chat or JOIN is granted iff the session is in OPEN, an AUTH iff it is in START, or in AUTH with no reply expected |
| UdpRuns.ChatSaysWhatWasTyped | UDPProtocolHandler.cpp:466-508 | in every run, what is typed in OPEN leaves as a MSG record that says the latest name and that line |
| UdpRuns.JoinSaysWhatWasTyped | UDPProtocolHandler.cpp:422-458 | the same of `/join`: the channel and the latest name |
| UdpRuns.RefusedExactly | UDPProtocolHandler.cpp:407-409 | in every run, a request in good form that is not granted sends nothing, leaves the name alone and shows only its refusal |
| UdpRuns.OriginalsOnTheWire | UDPMessageValidator.cpp:145-150 | over every run the k-th original has its kind's code (2, 3, 4, 254, 255) in the first octet and k modulo 65536, high octet first, in the next two |
| UdpRuns.ConfirmOnTheWire | UDPProtocolHandler.cpp:18-25 | a CONFIRM is three octets: 0 and the identifier, high octet first |
| UdpHandler.UDPProtocolHandler.SendErrorMessage | UDPProtocolHandler.cpp:61-75 | sends an ERR and waits, or puts it off while something is waited for |
| UdpHandler.UDPProtocolHandler.IdLookup | UDPProtocolHandler.cpp:34-36 | finds an identifier iff it is recorded |
| UdpHandler.UDPProtocolHandler.ProcessServerMessage | UDPProtocolHandler.cpp:38-59 | new state and answer are those of `ServerStep`: while waiting, the answer is WAITING_FOR_CONFIRMATION |
| UdpHandler.UDPProtocolHandler.ProcessConfirm | UDPProtocolHandler.cpp:84-121 | a CONFIRM is logged; with the awaited identifier it ends the wait, or lets BYE follow a confirmed ERR, or ends the connection after BYE; with any other it changes nothing else |
| UdpHandler.UDPProtocolHandler.ProcessReply | UDPProtocolHandler.cpp:124-218 | a readable, permitted REPLY is confirmed, and shown, recorded and consumed iff it names the awaited request; every other REPLY raises an objection, with or without a CONFIRM as the branch has it |
| UdpHandler.UDPProtocolHandler.ProcessMsg | UDPProtocolHandler.cpp:221-261 | a readable, permitted MSG is confirmed, and shown and recorded iff its identifier is new; every other MSG raises an objection and is not confirmed |
| UdpHandler.UDPProtocolHandler.ProcessErr | UDPProtocolHandler.cpp:264-321 | a readable, permitted ERR is confirmed and answered with BYE; a new one is shown and the BYE is not waited for, a known one is silent and the BYE is waited for |
| UdpHandler.UDPProtocolHandler.ProcessUserInput | UDPProtocolHandler.cpp:350-509 | `/exit` comes first, then an error put off, then the command: a permitted, valid request is sent under the next identifier and waited for, anything else is only shown; a successful rename has no answer |
| UdpHandler.StreamHandler.Turn | StreamHandler.cpp:38-120 | one turn of the loop on one outcome of `poll` |
| UdpHandler.StreamHandler.RunEventLoop | StreamHandler.cpp:15-121 | the loop on any sequence of outcomes, up to OVER |
| UdpClient.RunClient | main.cpp:40-41 | the UDP client object after any sequence of outcomes: requests left in turn, each answered in time; retransmissions within budget; only BYE after ERR; no chat before login; displayed messages came from datagrams, under distinct identifiers; recorded identifiers confirmed |
| UdpClient.RunToTheEnd | StreamHandler.cpp:58-84 | told to leave at any point, the client object ends in OVER within max + 1 timeouts |
| UdpDelivery.ServerMove | UDPProtocolHandler.cpp:79-346 | a datagram performs at most one operation on the link, and the answer agrees with the wait flag |
| UdpDelivery.UserMove | UDPProtocolHandler.cpp:350-509 | a line performs at most one operation on the link; a request only with the session's leave and no error put off |
| UdpDelivery.TockKeeps | StreamHandler.cpp:38-120 | the joint invariant of handler and loop survives every event: waiting implies WAITING_FOR_CONFIRMATION, other live states imply a full budget |
| UdpDelivery.StopAndWait | UDPProtocolHandler.cpp:84-121 | in every run, when an AUTH, JOIN or MSG was sent every earlier original but a BYE had been answered by its own CONFIRM before anything else was sent |
| UdpDelivery.IdentifiersInOrder | UDPProtocolHandler.cpp:397-405 | the k-th original carries k modulo 65536, retransmissions repeat the latest original, and while waiting its identifier is the one awaited |
| UdpDelivery.OnlyItsConfirmEndsTheWait | UDPProtocolHandler.cpp:86-119 | only a CONFIRM with the awaited identifier ends the wait, so the value 65535 never does it falsely |
| UdpDelivery.RetransmissionBudget | StreamHandler.cpp:70-98 | while a request is waited for, its retransmissions and the retries left add up to the maximum; unanswered, none was ever retransmitted more often |
| UdpDelivery.ErrorPhase | UDPProtocolHandler.cpp:61-75 | in every run everything originated after an ERR is a BYE, so there is at most one ERR |
| UdpDelivery.PendingErrorSilences | UDPProtocolHandler.cpp:364-368 | once an error is put off, no continuation originates another AUTH, JOIN or MSG |
| UdpDelivery.ClosingRun | StreamHandler.cpp:71-84 | on the way out the wait never ends before OVER, the budget is never reset, and each timeout costs one retry |
| UdpDelivery.ShutdownTerminates | StreamHandler.cpp:58-84 | after `/exit`, end of input or an interrupt at any point, max + 1 timeouts end the loop whatever else arrives |
| Channel.DeliveredInOrder | UDPProtocolHandler.cpp:84-121 | over a lossy, duplicating, reordering network with a peer that confirms only what it received, up to the first BYE and 65536 originals, the originals received are all those sent or all but the latest |
| Channel.NothingElseDelivered | UDPProtocolHandler.cpp:12-31 | whatever the peer received is an original the client sent, a CONFIRM the client sent, or the empty datagram of a retransmission with nothing sent yet |
| UdpSession.NoChatBeforeLogin | UDPProtocolHandler.cpp:422-508 | every JOIN and MSG sent comes after an accepted authorization followed by an accepted positive reply |
| UdpSession.EveryAnswerIsHandled | UDPProtocolHandler.cpp:147-199 | in every run user actions are answered ANY or WARN_CLIENT and server actions ANY or ERROR_USER; OVER never arises |
| UdpSession.OnlyRenameRunsOff | UDPProtocolHandler.cpp:460-465 | in every reachable client the one call without a return value is a successful rename |
| UdpSession.DisplayedAtMostOnce | UDPProtocolHandler.cpp:239-249 | over every run the identifiers of displayed messages and errors are pairwise distinct and recorded |
| UdpSession.ShownOnceForAll | UDPProtocolHandler.cpp:236-307 | a new MSG or ERR accepted at any point of any run is confirmed and on the terminal from then on, and no other message or error with its identifier ever is |
| UdpSession.ShownCameFromServer | UDPProtocolHandler.cpp:236-295 | over every run, every chat message and error on the terminal is the name and content of a readable datagram that arrived |
| UdpSession.MessageArrives | UDPProtocolHandler.cpp:236-249 | the MSG record of a valid name and content, met in OPEN at any point of any run under a new identifier, is confirmed and on the terminal with that name and content, once, whatever follows |
| UdpReceipts.RecordedAreConfirmed | UDPProtocolHandler.cpp:165-337 | over every run, every recorded identifier, and so every displayed one, has been confirmed |
| UdpSession.ReplyCredit | UDPProtocolHandler.cpp:150-193 | over every run displayed replies to real identifiers, plus one if one is awaited, are at most one more than the requests sent, and what is awaited is the latest request |
| UdpReplies.EachRequestAnsweredOnce | UDPProtocolHandler.cpp:150-193 | over every run and for each identifier but 65535, replies displayed to it, and one more while it is awaited, are at most the AUTH and JOIN sent under it, and one more for 0 |
| UdpSession.ShownRepliesWereAskedFor | UDPProtocolHandler.cpp:150-193 | over every run a displayed reply names an AUTH or JOIN that was sent, or 65535, or 0 |
| UdpRepeats.LeftAloneExactly | UDPProtocolHandler.cpp:123-346 | at any point of any live run, a datagram of three octets or more other than CONFIRM (shorter ones are never confirmed) leaves handler and event loop as they were, but for its CONFIRM, iff (a) the session is in OPEN and it is a readable MSG already recorded or a readable REPLY nobody awaits, or it draws, with its CONFIRM and in a session already in ERROR or without asking the session, the very objection already put off; and (b) the loop already waits for what the answer makes it wait for: a confirmation if one is awaited, otherwise a reply after a negative REPLY and anything after the rest |
| UdpRepeats.LeftAloneIsTraceless | StreamHandler.cpp:90-98 | with or without a datagram that left the client alone, every continuation of the run sends, retransmits, shows, records and awaits the same |
| UdpRepeats.RepeatedRefusalBlocksInput | UDPProtocolHandler.cpp:160-163 | a negative REPLY nobody awaits, met while the user may type, is only confirmed by the handler but puts the loop back to WAITING_FOR_REPLY: no line is read until the server is heard from or the user interrupts, though without it the next chat line is sent |
| UdpRepeats.BlockedInputIsReachable | UDPProtocolHandler.cpp:147-163 | six events from the start lead there: a login, a JOIN, and its refusal, which is then recorded and no longer awaited |
| UdpRepeats.RepeatedMessageFreesInput | UDPProtocolHandler.cpp:239-241 | the other way round, a recorded MSG met in WAITING_FOR_REPLY is only confirmed by the handler but lets the user type before the reply |
| UdpRepeats.RepeatedRefusalSpoilsLogin | FSMValidate.cpp:89-92 | while the answer to a new AUTH is awaited, the second copy of an earlier negative reply is confirmed and changes nothing visible, yet turns the positive answer, which would log in, into an offence answered with ERR |
| UdpRepeats.SpoiledLoginIsReachable | UDPProtocolHandler.cpp:147-163 | five events from the start lead there, the negative reply's identifier recorded |
| UdpRepeats.RepeatedRefusalEndsTheSession | UDPProtocolHandler.cpp:145-171 | the second copy of a negative answer to AUTH makes the client send ERR |
| UdpReplies.ReplyToNobodyIsShown | UDPProtocolHandler.cpp:158-188 | a reply to 65535 is displayed each time although nothing is awaited |
| UdpReplies.LoginExactly | UDPProtocolHandler.cpp:174-182 | in every live client of every run not in OPEN, an event enters OPEN iff it is a readable positive REPLY, to whatever identifier, met in AUTH with no restriction armed, or a refused line that rolls back a session that had been in OPEN |
| UdpReplies.UnaskedLoginExactly | UDPProtocolHandler.cpp:174-182 | in every run, some reply to no AUTH ever sent would log in iff the machine is in AUTH with no restriction armed and an identifier is left that no AUTH carried, which the next one is before identifiers wrap |
| UdpReplies.LoginWithoutAsking | UDPProtocolHandler.cpp:383-392 | a malformed `/auth` and any positive reply log the client in with nothing sent; a reply to 0 is shown as well |
| UdpReplies.ShownSuccessLogsInExactly | FSMValidate.cpp:57-60 | in every run, an awaited positive reply accepted in AUTH is shown as a success, and logs in iff no restriction is armed; otherwise the machine stays in AUTH |
| UdpReplies.TypoSpoilsLogin | FSMValidate.cpp:89-92 | `/auth` mistyped, then typed right, confirmed and answered with success: the success is shown and the client is still in AUTH |
| UdpFarewell.AskingAfterByeExactly | UDPProtocolHandler.cpp:263-309 | after any BYE at any point of any run, some continuation sends another AUTH, JOIN or MSG iff the BYE is not waited for and no error is put off |
| UdpFarewell.AskingAfterErrExactly | UDPProtocolHandler.cpp:276-307 | the same for the BYE that answers a server's ERR, in terms of the state before: iff nothing was waited for, the ERR was new and no error was put off |
| UdpFarewell.ChatAfterBye | UDPProtocolHandler.cpp:295-306 | in that case, in OPEN, the next chat line is refused and the one after it is sent as MSG |
| UdpFarewell.NothingAfterAwaitedBye | UDPProtocolHandler.cpp:352-362 | no request follows a BYE that is waited for, in any continuation |
| TcpText.TCPMessageValidator.AuthorizeValidate | TCPMessageValidator.cpp:95-119 | accepts exactly valid triples, forms the AUTH line, and names the first fault otherwise |
| TcpText.TCPMessageValidator.ValidateReply | TCPMessageValidator.cpp:160-182 | reads a REPLY line, content glued back together |
| TcpText.TCPMessageValidator.ValidateMessageServer | TCPMessageValidator.cpp:185-212 | reads a MSG line, name in its own letter case |
| TcpText.TCPMessageValidator.ValidateErrorServer | TCPMessageValidator.cpp:215-243 | reads an ERR line |
| TcpText.ReplyParses | TCPMessageValidator.cpp:160-182 | for any letter case of the keywords and any content at all, the content comes back untouched and is accepted iff valid |
| TcpText.ReplyPrints | TCPMessageValidator.cpp:160-182 | every line accepted as a reply has that layout |
| TcpText.MsgParses | TCPMessageValidator.cpp:185-212 | the same for MSG, with the name returned as sent |
| TcpText.MsgPrints | TCPMessageValidator.cpp:185-212 | every line accepted as a message has that layout, with a valid space-free name |
| TcpText.MsgNamePrints | TCPMessageValidator.cpp:185-212 | the name reported for an unreadable message is the client's own, unless the line has the layout with a valid name: then it is that name |
| TcpText.FirstFaultIsNamed | TCPMessageValidator.cpp:95-113 | a rejected `/auth` is blamed on the first thing wrong with it: form, id, secret, name |
| TcpText.ErrParses | TCPMessageValidator.cpp:215-243 | the same for ERR |
| TcpText.ErrPrints | TCPMessageValidator.cpp:215-243 | every line accepted as an error has that layout |
| TcpText.MsgRoundTripExactly | TCPMessageValidator.cpp:139-147 | a message formed from valid parts reads back iff the name has no space |
| TcpText.ErrRoundTripExactly | TCPMessageValidator.cpp:12-14 | an error line formed from valid parts reads back iff the name has no space |
| Framing.FindCrlf | TCPProtocolHandler.cpp:164 | finds the first CR LF |
| Framing.CutWire | TCPProtocolHandler.cpp:163-173 | cutting joined frames returns them and leaves any tail to its own cutting |
| Framing.WireOfFrames | TCPProtocolHandler.cpp:163-173 | cutting loses nothing, and no frame contains CR LF |
| TcpEffects.FramesDoRight | TCPProtocolHandler.cpp:182-346 | for every frame of every chunk of every run: which line is shown, whether the reply wait ends, what the session is asked, and what is sent: one ERR line with this name and text and one BYE line for a frame that is unknown, forbidden or unreadable, one BYE line for an accepted ERR, nothing otherwise; and what the loop is told |
| TcpEffects.ErrorArrives | TCPProtocolHandler.cpp:300-320 | an ERR line formed with a space-free name, met where ERR is admitted, is shown with name and text, answered with one BYE line, and closes |
| TcpRuns.ChunkEndsWithItsAnswer | TCPProtocolHandler.cpp:169-172 | an answer other than READY_FOR_INPUT is the last word about a chunk: no frame is handed on after it and the loop goes on with it |
| TcpRuns.TypedLinesDoRight | TCPProtocolHandler.cpp:22-137 | a line is read iff the loop listens and it is not empty; `/exit` sends one BYE line and closes; a request in good form that is granted leaves in these words in this order, a rename changes the name alone, and anything else is answered with its one notice |
| TcpRuns.DeparturesDoRight | StreamHandler.cpp:58-62 | the first interrupt, and the end of input while listening, send one BYE line and close; when the server hangs up the loop closes without a word |
| TcpRuns.BudgetDoesRight | StreamHandler.cpp:70-98 | over TCP a timeout matters only where an undefined answer left the loop waiting for a confirmation: then it uses up retries and closes, sending nothing; chunks restore them |
| TcpRuns.NameIsTheLatest | TCPMessageValidator.cpp:95-119 | in every run the display name is the one the latest accepted `/auth` or `/rename` gave |
| TcpRuns.GrantedExactly | FSMValidate.cpp:63-178 | in every live run a chat or JOIN is granted iff the session is in OPEN, an AUTH iff it is in START, or in AUTH with no reply expected |
| TcpRuns.ChatSaysWhatWasTyped | TCPMessageValidator.cpp:139-147 | in every run, what is typed in OPEN leaves as the words MSG FROM, the latest name, IS and that line |
| TcpRuns.JoinSaysWhatWasTyped | TCPMessageValidator.cpp:122-136 | the same of `/join`: JOIN, the channel, AS, the latest name |
| TcpRuns.RefusedExactly | TCPProtocolHandler.cpp:45-135 | in every run, a request in good form that is not granted sends nothing, leaves the name alone and shows only its refusal |
| TcpHandler.TCPProtocolHandler.ProcessServerMessage | TCPProtocolHandler.cpp:140-179 | the append-and-cut loops on one chunk, stopping at the first answer that is not READY_FOR_INPUT |
| TcpHandler.TCPProtocolHandler.ProcessReceived | TCPProtocolHandler.cpp:182-346 | a readable, permitted frame is shown (a REPLY iff one is awaited, ending that wait); an ERR is answered with BYE, and an unreadable or forbidden frame with ERR and BYE, which close the connection |
| TcpHandler.TCPProtocolHandler.ProcessUserInput | TCPProtocolHandler.cpp:22-137 | a permitted, valid request is sent, and AUTH and JOIN wait for the reply; anything else is only shown; a successful rename has no answer |
| TcpHandler.StreamHandler.Turn | StreamHandler.cpp:38-120 | one turn of the loop over TCP |
| TcpHandler.StreamHandler.RunEventLoop | StreamHandler.cpp:15-121 | the loop over TCP on any sequence of outcomes, up to OVER |
| TcpClient.RunClient | main.cpp:40-41 | the TCP client object after any sequence of outcomes: frames and buffer make up exactly the bytes received, in canonical order; no chat before login; replies within the requests sent; the session working while live |
| TcpSession.FramesInOrder | TCPProtocolHandler.cpp:145-178 | in every run and for every chunking, frames handed on and buffer make up exactly the bytes received, and the frames are a prefix of the canonical ones |
| TcpSession.ReadyMeansDrained | TCPProtocolHandler.cpp:175-176 | when a chunk is answered READY_FOR_INPUT all complete frames have been handed on |
| TcpSession.ChunkingIsInvisible | TCPProtocolHandler.cpp:145-178 | two handlers that received the same bytes agree on the frames, up to how far each has got |
| TcpSession.MessagesArrive | TCPProtocolHandler.cpp:205-220 | from any point of any run where the client is logged in: if what is still unread is messages formed with space-free names, then however it is cut into chunks and whatever the user types meanwhile, the screen shows the first so many, whole and in order, and the others are the frames left in the buffer; none is left unless a reply is awaited or frames were left over before |
| TcpSession.NoChatBeforeLogin | TCPProtocolHandler.cpp:45-135 | every JOIN and MSG line comes after an accepted authorization followed by an accepted reply |
| TcpReplies.ReplyCredit | TCPProtocolHandler.cpp:247-249 | over every run, replies displayed, and one more while a reply is awaited, are at most the AUTH and JOIN lines sent |
| TcpReplies.LoginExactly | TCPProtocolHandler.cpp:164-173 | of all the frames of all the chunks of every run, in whatever state between two frames, one met outside OPEN enters OPEN iff it starts with REPLY OK and meets AUTH with no restriction armed, sent for or not, readable or not |
| TcpReplies.NoLineLogsIn | TCPProtocolHandler.cpp:22-137 | no line from the user enters OPEN in any live run |
| TcpReplies.ShownSuccessLogsInExactly | FSMValidate.cpp:57-60 | of all the frames of all the chunks of every run, an awaited REPLY OK accepted in AUTH is shown as a success, and logs in iff no restriction is armed |
| TcpReplies.TypoSpoilsLogin | FSMValidate.cpp:89-92 | the run of `/auth` mistyped, `/auth` typed right, and success from the server: the success is shown and the client is still in AUTH |
| TcpSession.SessionStaysWorking | TCPProtocolHandler.cpp:182-346 | while the loop is live the machine is in START, AUTH or OPEN, and no answer lacks a branch |
| TcpSession.OnlyRenameRunsOff | TCPProtocolHandler.cpp:99-104 | in every live run, of the user's lines only a successful rename gets no answer |
| TcpSession.OnlyTheseFramesRunOff | TCPProtocolHandler.cpp:239-298 | of all the frames of all the chunks of every run, exactly a REPLY neither OK nor NOK, and an accepted REPLY that stops after IS, get no answer |
| Agreement.TransportsAgree | UDPMessageValidator.cpp:130-163 | for every argument both transports send an AUTH or neither, and the three texts recovered are equal |
| Agreement.CredentialsAreRecoverable | TCPMessageValidator.cpp:115-117 | neither encoding maps two accepted arguments to one message |

## Left out

- Sockets, address lookup, `poll` and `recv` errors and the exits they cause (`connectToServer.cpp`, `StreamHandler.cpp:66-68`): replaced by events and histories.
- The peer's address and port, copied from every datagram (`UDPProtocolHandler.cpp:51-52`).
- Configuration, argument parsing and the help text.
- Signal delivery: the interrupt is one event that acts once; a second SIGINT ends the process.
- Elapsed time: a timeout is an event (`CHANGELOG.md:15-17` says the accounting is off).
- The 1499-octet receive buffers: texts of every length are covered.
- Liveness of replies and blocking standard input until a reply: the code does not keep them (a message or a partial frame returns READY_FOR_INPUT).
- `validate_bye_server` and `form_bye_message` of the TCP validator, which nothing calls.

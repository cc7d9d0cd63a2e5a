# A verified model of the SIP server

The server is a SIP registrar and back-to-back user agent: it parses and prints SIP messages,
runs the four transaction state machines of section 17 of RFC 3261 over UDP and TCP, keeps
registrations with digest authentication, and connects a caller's INVITE to a callee through a
B2BUA that handles session timers (RFC 4028). This project models `internal/sip` and proves what
that code promises, for all inputs, all runs and all interleavings named below.

`dafny verify dfyconfig.toml` checks everything.

## How it is organised

| file | part of the server |
|---|---|
| `Text.dfy` | the functions of Go's `strings` and `strconv` in use, on ASCII text |
| `Message.dfy`, `Codec.dfy` | messages, printer, response and ACK builders, parsers, round trips |
| `Framing.dfy` | the TCP read loop |
| `Params.dfy`, `Uri.dfy`, `Via.dfy` | parameter lists, SIP URIs, Via lists |
| `Timing.dfy` | timers on a virtual clock and the retransmission schedules |
| `InviteServer.dfy`, `InviteClient.dfy`, `NonInviteServer.dfy`, `NonInviteClient.dfy` | the four transactions |
| `InviteOverNetwork.dfy` | an INVITE client and server over an unreliable network |
| `Transactions.dfy` | the table of transactions by branch, and their creation |
| `Dispatch.dfy` | `handleRequest` and `handleResponse` |
| `Absorption.dfy`, `ExactlyOnce.dfy`, `AbsorptionLimit.dfy` | REGISTER retransmissions over UDP: which copies are always absorbed, when all are, and that this condition is exact |
| `RegisterRouting.dfy` | those runs as runs of `handleRequest` |
| `CloseOnce.dfy` | mutex and `done` channel of the transactions, operation by operation |
| `Registrar.dfy`, `RegisterText.dfy` | bindings, and what a REGISTER does to them in terms of its header text |
| `Nonces.dfy`, `Challenges.dfy` | digest nonces, the REGISTER handler, and which REGISTERs pass over whole runs |
| `SessionTimer.dfy`, `B2bua.dfy` | session timers, the B2BUA and its composition with the INVITE server |

Code that changes fields is a class with those fields; each method's contract equates the whole
new state with a step of a specification machine, and the theorems are about that machine. A
run is any sequence of events: an event that is not enabled changes nothing, time may only pass
up to the next deadline, and timers that are due may fire in any order. Where Go visits a map in
an order of its own choosing, methods return the order they took as a ghost value and the
theorems hold for every order.

## Assumptions

- Writes to a transport succeed, except in `CloseOnce`, where they may fail.
- A client transaction's first send and the arming of its timers are one step; taking a queued
  response and the locked section that follows are one step; `Timer.Stop` prevents a later firing.
- One call of `handleRequest` is one step, and the clock is read once per REGISTER and per INVITE.
- T1 > 0 and T1 <= T2.
- Generated branches, tags, Call-IDs and nonces are inputs: branches have the magic cookie and
  hexadecimal digits, a nonce was never issued before. The server's own address and transport name
  contain no blank, comma, semicolon or quote.
- Text is ASCII and integers are unbounded.
- Responses reach mediation from the parser, or from Timer B without headers, so their header
  names are in title case (`Codec.ParsedIsCanonical`).
- Copies of a REGISTER travel for times that differ by less than T1 (`Absorption`). The REGISTERs
  have branches of their own, lie outside the known dialogs and have not passed this server before
  (`RegisterRouting.Plain`): a request in a dialog is handed up again (`Dispatch.CopyHandedUp`).
- `Absorption.CopiesAbsorbed`, `Absorption.CopiesBeforeTimerF` and `ExactlyOnce.SeenAtMostOnce` hold
  whatever responses the clients receive, and when. In `AbsorptionLimit` a client receives only what
  a server transaction of its branch has written, under the same delay bounds
  (`Absorption.Authentic`).
- `ExactlyOnce.SeenAtMostOnce`, `AbsorptionLimit.AbsorptionIsExact` and `NonInviteClient.Lifetime`
  are about users that have emptied their client transaction's channel whenever Timer F fires. The
  server's own users do not promise that: they take one response and stop reading (`b2bua.go:537`,
  `b2bua.go:556`, `app_guidance.go:297-305`). What holds for every user is `Absorption.CopiesAbsorbed`,
  and that the two absorption theorems need the assumption is `AbsorptionLimit.UnreadSeenTwice`.
- `InviteOverNetwork` has one server transaction. A copy of the INVITE that arrives after it has
  been removed starts another, and an old ACK can confirm that one
  (`InviteOverNetwork.OldAckConfirmsNewFinal`).

## Where the code does something else than expected

- Exactly-once absorption of REGISTER does not follow from T1 dividing T2: only copies written before
  64*T1 are safe then (`Absorption.CopiesBeforeTimerF`). With channels kept free the exact condition
  is that Timer E cannot fire in the last T1 before Timer F (`AbsorptionLimit.AbsorptionIsExact`);
  the server's values meet it, T2 = T1 does not (`AbsorptionLimit.DividingIsNotEnough`).
- With an unread response in the client's channel Timer F waits while Timer E goes on resending, and
  a request is seen twice for every timer value (`AbsorptionLimit.UnreadSeenTwice`).
- A retransmitted request inside a known dialog is not absorbed: `Dispatch.CopyHandedUp` says exactly
  when, `Dispatch.ByeHandedUpTwice` is a BYE.
- The tag of the caller's From is cut off only after `;tag=` without a blank; an older tag that stays
  keeps hiding the generated one (`B2bua.OwnFromTag`, `B2bua.OlderTagStays`, `B2bua.OlderTagWitness`).
- Timer B of an INVITE client is not stopped by a 2xx, nor by an error final on UDP: at 64*T1 the user
  is handed a 408 after its final (`InviteClient.TimeoutAfterFinal`). What the theorems call handed
  over is what `ReceiveResponse` hands over.
- A 2xx leaves an INVITE client Terminated with `done` open (`CloseOnce.SuccessLeavesDoneOpen`,
  `InviteClient.DoneExactly`).
- A write that fails under the mutex makes the goroutine wait for itself (`CloseOnce.WaitsForItself`,
  `CloseOnce.FailedWriteJams`).
- An INVITE server whose user sends an error final after the ACK goes back to Completed
  (`InviteServer.RankFallsExactly`, `InviteServer.ErrorAfterAck`); the B2BUA never does that
  (`B2bua.CallDrivesServer`).
- A contact bound between the two critical sections of an INVITE's prune can be lost, and one removed
  there can come back: `Registrar.SettleEffect` says exactly which, `Registrar.SplitPruneLosesBinding`
  and `Registrar.SplitPruneRevivesBinding` are runs.
- A contact with `>` before `<` stops the program (`Registrar.Server.UpdateContact`,
  `Registrar.CrossedBrackets`), and so does a negative Content-Length on TCP
  (`Framing.NegativeLengthExactly`, `Framing.NegativeWitness`).
- A transaction added under a branch that is still held is lost when the older one ends
  (`Transactions.LookupsAreExact`, `Transactions.OlderRemovesNewer`, `Transactions.NewerLost`).
- A 2xx for a caller whose To has an empty tag parameter has no To tag (`B2bua.DialogHasTag`,
  `B2bua.EmptyTagStays`, `B2bua.EmptyTagWitness`).

## Model

| member | source | states |
|---|---|---|
| Message.WriteMessage | internal/sip/parser.go:20-33 | Printing visits every header exactly once, in some order, and yields exactly the text of that order: title-cased names, the stored Content-Length skipped, the length of the body announced instead |
| Message.BuildResponse | internal/sip/response.go:99-130 | The response has exactly the copied headers, the fixed tag added to an untagged To, overwritten by the extra headers in some visiting order |
| Message.PutAllCanonical | internal/sip/response.go:125-127 | With title-cased extra names the visiting order of the map cannot matter |
| Message.PutAllAt | internal/sip/response.go:125-127 | For any names and any order: a header that no extra name titles to is left as copied, any other carries the value of such an extra |
| Message.ResponseCopies | internal/sip/response.go:99-130 | Whatever other headers are added in whatever order: Via, From, Call-ID and CSeq are the request's, and To is, with the fixed tag behind it exactly if no tag was there |
| Message.AckMatches | internal/sip/response.go:135-161 | The ACK has the URI, Via, From, Call-ID, CSeq number and Route of the INVITE, the To of the response it answers, and no body |
| Message.AckCSeq | internal/sip/response.go:149 | The ACK's CSeq value splits back into the INVITE's number and `ACK` |
| Codec.ParseHeaderLines | internal/sip/parser.go:323-340 | The header loop yields the map the line-by-line definition gives, and the digest parameters of its last Authorization header |
| Codec.ParseAuthHeader | internal/sip/parser.go:365-382 | The key/value pairs of a Digest value, nothing for other schemes |
| Codec.ParseSIPRequest | internal/sip/parser.go:294-362 | Computes the request or the error that the reference parser gives, for every text |
| Codec.FindEmpty | internal/sip/response.go:192-201 | The scan stops at the first empty line |
| Codec.ParseSIPResponse | internal/sip/response.go:164-224 | Computes the response or the error that the reference parser gives, for every text |
| Codec.ParsedIsCanonical | internal/sip/response.go:203-212 | Every parsed response has only title-cased header names |
| Codec.AuthReadsBack | internal/sip/parser.go:365-382 | Digest parameters printed with quotes, in any order, are read back as they were |
| Codec.RequestRoundTrip | internal/sip/parser.go:294-362 | For every printable request and every header order, parsing the printed text gives back the start line, the headers with Content-Length set to the body length, the digest parameters and the body, blank lines in the body included |
| Codec.ResponseRoundTrip | internal/sip/response.go:164-224 | The same for every printable response |
| Codec.DigestArrives | internal/sip/parser.go:330-337 | So the server reads from a printed request exactly the digest parameters its client put there |
| Codec.BodyByLength | internal/sip/parser.go:342-358 | Whatever text follows a printed head: shorter than the announced body it is refused, longer it is cut to the announced length |
| Codec.StartLineRefused | internal/sip/parser.go:304-318 | A request whose first line is not three words, the first one not empty, is refused, whatever its headers and body |
| Codec.StatusLineRefused | internal/sip/response.go:174-188 | A response whose first line has no second word, or no number there, is refused |
| Framing.ParseContentLength | internal/sip/server.go:240-256 | The first line that starts with `content-length:` or `l:` and carries a number decides; otherwise 0 |
| Framing.FirstReadableDecides | internal/sip/server.go:240-256 | The first line that names the length and carries a number decides, whatever lines follow |
| Framing.LengthLineRead | internal/sip/server.go:243-250 | Both spellings of the header, in any case, are read |
| Framing.ReadHead | internal/sip/server.go:209-223 | Reads up to and including the first line that is only CRLF |
| Framing.ReadFrame | internal/sip/server.go:209-235 | One turn of the loop: the next message, or how the stream ends |
| Framing.HandleConnection | internal/sip/server.go:197-237 | The messages dispatched are exactly those of the recursive reference, in order, and the loop ends the same way |
| Framing.OneFrame | internal/sip/server.go:209-235 | A framable message in front of any bytes is read off whole and nothing else is |
| Framing.FramingUndoesConcatenation | internal/sip/server.go:197-256 | For every list of framable messages the connection loop cuts their concatenation back into exactly that list, whatever the bodies contain |
| Framing.RequestsAreFramable | internal/sip/parser.go:20-33 | Every printed request without another length-like header is framable, for every header order |
| Framing.ResponsesAreFramable | internal/sip/response.go:19-32 | The same for printed responses |
| Framing.NegativeLengthExactly | internal/sip/server.go:209-235 | The loop meets a negative length, where the program stops, if and only if the stream is complete messages followed by a header block that announces one |
| Framing.NegativeWitness | internal/sip/server.go:224-228 | The eight bytes `l:-1`, CRLF, CRLF are such a stream |
| Params.ParseParams | internal/sip/parser.go:113-124 | The parameter loop yields the map of the piece-by-piece definition |
| Params.ParamsParse | internal/sip/parser.go:113-124 | Parsing printed parameters, in any emission order, gives back exactly those parameters |
| Uri.UriString | internal/sip/parser.go:68-91 | Printing visits every parameter exactly once, in some order |
| Uri.ParseSIPURI | internal/sip/parser.go:95-147 | Computes the URI or the error the reference gives, for every text |
| Uri.UriRoundTrip | internal/sip/parser.go:68-147 | For every well-formed URI and every parameter order, parsing the printed text gives the URI back, with and without angle brackets |
| Uri.NoSchemeRefused | internal/sip/parser.go:95-105 | Text without a colon is refused |
| Uri.NoHostRefused | internal/sip/parser.go:125-147 | So is every URI with nothing where the host should be, with or without port and parameters |
| Vias.SplitByCommaOutsideQuotes | internal/sip/parser.go:249-263 | The scanning loop computes the recursive quote-aware split |
| Vias.SplitThenJoin | internal/sip/parser.go:249-263 | Joining the pieces with commas gives the input back; every piece but the last is quote-balanced and none has an unquoted comma |
| Vias.JoinThenSplit | internal/sip/parser.go:249-263 | Splitting a join of such pieces returns exactly the pieces |
| Vias.ParseVia | internal/sip/parser.go:192-227 | Computes the Via or the error the reference gives |
| Vias.AllVias | internal/sip/parser.go:268-291 | The list of all entries that parse, up to the first that does not, and whether one did not |
| Vias.Response.PopVia | internal/sip/response.go:82-95 | The Via header becomes the text after the first comma, trimmed, or is removed; no other header changes |
| Vias.PopsYieldAll | internal/sip/response.go:67-95 | For every quote-free list of parseable entries, blanks around them included: repeated TopVia and PopVia on a response that carries the list ends, yields exactly what AllVias lists for the request, and takes away the Via header and no other |
| Vias.TrimmedViaParses | internal/sip/parser.go:192-227 | Outer blanks make no difference to a Via value, parseable or not |
| Vias.OwnViaReadsBack | internal/sip/b2bua.go:175-177 | The Via the server writes is one entry that parses and has exactly the branch put into it |
| Vias.OwnViaIs | internal/sip/parser.go:192-227 | And exactly the protocol, host and port |
| Timing.DoubledClosedForm | internal/sip/transaction_invite_client.go:166-181 | An interval doubling from T1 expires at (2^n - 1)*T1 |
| Timing.SixFit | internal/sip/transaction_invite_client.go:157-181 | Exactly six doubling expiries fit before 64*T1 |
| Timing.OffsetsAtEight | internal/sip/transaction_noninvite_client.go:141-145 | With T2 = 8*T1 the tenth capped expiry is at 63*T1, the eleventh at 71*T1 |
| Timing.TenFit | internal/sip/transaction_noninvite_client.go:121-146 | So exactly ten capped expiries fit before 64*T1 |
| InviteServer.RunSound | internal/sip/transaction_invite_server.go:91-184 | Every run, every user: each retransmission repeats the latest response, `done` is closed exactly in Terminated, no timer is armed there, and a reliable transport sees no timer resend |
| InviteServer.Conservation | internal/sip/transaction_invite_server.go:91-184 | Every run, every user: the user's writes are exactly the responses taken before the end, the replays as many as the request copies that came after the first of them and before the ACK, the timer's writes as many as the expiries of Timer G in Completed; with the first 100 that is the whole wire |
| InviteServer.RankFallsExactly | internal/sip/transaction_invite_server.go:134-167 | The state moves back exactly when an error final is taken after the ACK |
| InviteServer.ErrorAfterAck | internal/sip/transaction_invite_server.go:134-161 | A run that gets there: error final, ACK, a second error final, and Confirmed becomes Completed |
| InviteServer.RunOrderly | internal/sip/transaction_invite_server.go:91-184 | If the user sends nothing after a final, every reachable state has one Timer G on the capped schedule, Timer H at 64*T1 after the final, Timer I at T4 after the ACK, and no stray timer |
| InviteServer.Progress | internal/sip/transaction_invite_server.go:91-184 | For such a user the state never moves back, and nothing is written in Confirmed or Terminated |
| InviteServer.CompletedIsFrozen | internal/sip/transaction_invite_server.go:134-184 | For such a user, Completed and Confirmed mean the stored response is the last offered error final, and the wire carries only copies of it since it was first written |
| InviteServer.TenResends | internal/sip/transaction_invite_server.go:169-184 | With T2 = 8*T1 Timer G resends at most ten times, exactly ten when Timer H fires, never on reliable transports |
| InviteServer.Lifetime | internal/sip/transaction_invite_server.go:100-161 | Completed lasts at most 64*T1 past the final, Confirmed at most T4 more, and a 2xx closes `done` |
| InviteServer.SuccessEnds | internal/sip/transaction_invite_server.go:148-153 | A stored 2xx means Terminated |
| InviteServer.InviteServerTx.constructor | internal/sip/transaction_invite_server.go:46-60 | Starts in Proceeding with 100 Trying written and not stored |
| InviteServer.InviteServerTx.Send | internal/sip/transaction_invite_server.go:186-193 | Appends one write to the trace |
| InviteServer.InviteServerTx.Terminate | internal/sip/transaction_invite_server.go:76-89 | State, timers and `done` become those of the specification |
| InviteServer.InviteServerTx.Receive | internal/sip/transaction_invite_server.go:91-123 | An ACK confirms, a copy replays the stored response: the whole new state is that of the specification |
| InviteServer.InviteServerTx.Respond | internal/sip/transaction_invite_server.go:125-132 | Queues the response if the slot is free; an error once `done` is closed, and a wait on a full slot, otherwise |
| InviteServer.InviteServerTx.StartTimerG | internal/sip/transaction_invite_server.go:169-184 | Arms Timer G at T1 on unreliable transports only |
| InviteServer.InviteServerTx.TakeResponse | internal/sip/transaction_invite_server.go:138-162 | One turn of the loop carries out the specified step |
| InviteServer.InviteServerTx.AwaitAck | internal/sip/transaction_invite_server.go:154-161 | Entering Completed arms Timers G and H |
| InviteServer.InviteServerTx.FireTimerG | internal/sip/transaction_invite_server.go:174-183 | One resend and the next capped interval |
| InviteServer.InviteServerTx.FireStray | internal/sip/transaction_invite_server.go:174-183 | A Timer G whose field was overwritten resends once and resets the current one |
| InviteServer.InviteServerTx.FireTimerH | internal/sip/transaction_invite_server.go:157-160 | Ends the transaction |
| InviteServer.InviteServerTx.FireTimerI | internal/sip/transaction_invite_server.go:109 | Ends the transaction |
| InviteClient.StepAcks | internal/sip/transaction_invite_client.go:81-152 | A step writes an ACK exactly when a response of 300 or above is received before the end, and it is the ACK for that response |
| InviteClient.AckAccounting | internal/sip/transaction_invite_client.go:81-152 | Every run: the ACKs written are, one by one, those for the responses of 300 or above received before termination, none for a 1xx or 2xx; the user is handed at most one final |
| InviteClient.NeverMovesBack | internal/sip/transaction_invite_client.go:81-181 | Every run: the state is no earlier than after any part of the run |
| InviteClient.Delivers | internal/sip/transaction_invite_client.go:81-142 | Every response in every state: a provisional before the end and the first final are put into a free channel, nothing else is, and which state follows |
| InviteClient.NothingLost | internal/sip/transaction_invite_client.go:81-168 | Every run, every user: what the user has taken and what waits in the channel is exactly what was due, in order: those responses, and 408 whenever Timer B finds room |
| InviteClient.HearsAll | internal/sip/transaction_invite_client.go:81-142 | A user that keeps its channel free is handed every response up to the first final, in order |
| InviteClient.HearsFirstFinal | internal/sip/transaction_invite_client.go:81-142 | And that final itself, behind all others |
| InviteClient.FinalHandedExactly | internal/sip/transaction_invite_client.go:81-142 | Every run of such a user: exactly one final is handed over if and only if one came before the end |
| InviteClient.TimeoutAfterFinal | internal/sip/transaction_invite_client.go:154-164 | A run, for every 2xx and every error final on UDP: the user has its final, and at 64*T1 it is handed a 408 as well |
| InviteClient.DoneExactly | internal/sip/transaction_invite_client.go:130-142 | A terminated transaction has `done` closed exactly when no 2xx ended it |
| InviteClient.CopiesOverRuns | internal/sip/transaction_invite_client.go:154-181 | Every run: at most seven copies of the INVITE, the k-th not before (2^k - 1)*T1, one only on reliable transports |
| InviteClient.UnansweredInvite | internal/sip/transaction_invite_client.go:154-181 | For every T1 an unanswered UDP INVITE is written exactly seven times, at (2^k - 1)*T1 for k = 0..6 |
| InviteClient.InviteClientTx.constructor | internal/sip/transaction_invite_client.go:46-55 | Construction with the first send and Timers A and B armed |
| InviteClient.InviteClientTx.Terminate | internal/sip/transaction_invite_client.go:66-79 | State, timers and `done` become those of the specification |
| InviteClient.InviteClientTx.SendResponseToTU | internal/sip/transaction_invite_client.go:90-96 | A full channel drops the response |
| InviteClient.InviteClientTx.SendAck | internal/sip/transaction_invite_client.go:144-152 | One ACK write |
| InviteClient.InviteClientTx.ReceiveResponse | internal/sip/transaction_invite_client.go:81-142 | The whole new state is that of the specification, for every response and state |
| InviteClient.InviteClientTx.Answer | internal/sip/transaction_invite_client.go:81-142 | What a response does once the ACK for it is built: the whole new state of the specification |
| InviteClient.InviteClientTx.ReceiveError | internal/sip/transaction_invite_client.go:111-128 | The branch for 300 and above |
| InviteClient.InviteClientTx.FireTimerD | internal/sip/transaction_invite_client.go:121 | Ends the transaction |
| InviteClient.InviteClientTx.FireTimerA | internal/sip/transaction_invite_client.go:170-180 | A resend in Calling only, with the interval doubled |
| InviteClient.InviteClientTx.FireTimerB | internal/sip/transaction_invite_client.go:157-161 | Hands 408 to the user and ends, or waits for room |
| InviteClient.InviteClientTx.TakeResponse | internal/sip/transaction_invite_client.go:59 | The user empties the channel |
| InviteClient.InviteClientTx.ReleaseTimerB | internal/sip/transaction_invite_client.go:159-160 | The waiting timer gets its turn |
| NonInviteClient.RunPaced | internal/sip/transaction_noninvite_client.go:118-147 | Every run: the i-th copy goes out no earlier than the capped schedule allows, and Timer E is never ahead of it |
| NonInviteClient.Delivers | internal/sip/transaction_noninvite_client.go:81-116 | Every response in every state: what it does to the channel, the state and Timers E, F and K |
| NonInviteClient.NothingLost | internal/sip/transaction_noninvite_client.go:81-128 | Every run, every user: what the user has taken and what waits in the channel is exactly what was due, in order |
| NonInviteClient.QuietAfterFinal | internal/sip/transaction_noninvite_client.go:97-146 | After a final nothing is written any more, whatever comes |
| NonInviteClient.AtMostElevenCopies | internal/sip/transaction_noninvite_client.go:118-147 | With T2 = 8*T1 any pattern of responses gives at most eleven copies up to 64*T1, one on reliable transports |
| NonInviteClient.UnansweredRequest | internal/sip/transaction_noninvite_client.go:118-147 | An unanswered request is written exactly eleven times, each on the capped schedule |
| NonInviteClient.Lifetime | internal/sip/transaction_noninvite_client.go:97-128 | If the user has emptied its channel whenever Timer F fires, `done` is closed no later than 64*T1 + T4 after the start |
| NonInviteClient.NonInviteClientTx.constructor | internal/sip/transaction_noninvite_client.go:46-55 | Construction with the first send and Timers E and F armed |
| NonInviteClient.NonInviteClientTx.Terminate | internal/sip/transaction_noninvite_client.go:66-79 | State, timers and `done` become those of the specification |
| NonInviteClient.NonInviteClientTx.ReceiveResponse | internal/sip/transaction_noninvite_client.go:81-116 | The whole new state is that of the specification |
| NonInviteClient.NonInviteClientTx.FireTimerE | internal/sip/transaction_noninvite_client.go:134-146 | A resend and the next interval: doubled, capped, or T2 after a provisional |
| NonInviteClient.NonInviteClientTx.FireTimerF | internal/sip/transaction_noninvite_client.go:121-125 | Hands 408 to the user and ends, or waits for room |
| NonInviteClient.NonInviteClientTx.TakeResponse | internal/sip/transaction_noninvite_client.go:59 | The user empties the channel |
| NonInviteClient.NonInviteClientTx.ReleaseTimerF | internal/sip/transaction_noninvite_client.go:123-124 | The waiting timer gets its turn |
| NonInviteClient.NonInviteClientTx.FireTimerK | internal/sip/transaction_noninvite_client.go:111 | Ends the transaction |
| NonInviteServer.FreezeAndConservation | internal/sip/transaction_noninvite_server.go:84-159 | Every run, every user: after the first final every write equals it, Completed means a stored final, and the writes are exactly the accepted responses plus the request copies received after a response |
| NonInviteServer.TimerJExact | internal/sip/transaction_noninvite_server.go:142-150 | Timer J, armed once, stands at exactly 64*T1 after the first final, and that time is unique |
| NonInviteServer.ClosesOnTime | internal/sip/transaction_noninvite_server.go:142-150 | The step that closes `done` comes exactly 64*T1 after the one time at which a final was written |
| NonInviteServer.NonInviteServerTx.constructor | internal/sip/transaction_noninvite_server.go:45-59 | Starts in Trying with nothing written |
| NonInviteServer.NonInviteServerTx.Terminate | internal/sip/transaction_noninvite_server.go:69-82 | State, timer and `done` become those of the specification |
| NonInviteServer.NonInviteServerTx.Send | internal/sip/transaction_noninvite_server.go:161-168 | Appends one write to the trace |
| NonInviteServer.NonInviteServerTx.Receive | internal/sip/transaction_noninvite_server.go:84-95 | A copy replays the stored response in Proceeding and Completed only |
| NonInviteServer.NonInviteServerTx.Respond | internal/sip/transaction_noninvite_server.go:97-104 | Queues the response if the slot is free; an error once `done` is closed, and a wait on a full slot, otherwise |
| NonInviteServer.NonInviteServerTx.TakeResponse | internal/sip/transaction_noninvite_server.go:125-159 | One turn of the loop carries out the specified step, later finals ignored |
| NonInviteServer.NonInviteServerTx.FireTimerJ | internal/sip/transaction_noninvite_server.go:150 | Ends the transaction |
| InviteOverNetwork.ClientProjects | internal/sip/transaction_invite_client.go:81-181 | The client of a joint run is a run of the client machine |
| InviteOverNetwork.ServerProjects | internal/sip/transaction_invite_server.go:91-184 | The server of a joint run is a run of the server machine |
| InviteOverNetwork.ConfirmedMeansAcked | internal/sip/transaction_invite_client.go:81-152 | Over a losing, duplicating, reordering network, in every reachable state: a Confirmed server means the client has received a final of 300 or above that this server wrote and has acknowledged exactly that one |
| InviteOverNetwork.OneFinalAgreed | internal/sip/transaction_invite_server.go:91-167 | If the server's user sends one final only, the final ReceiveResponse hands the client's user is that one, at most once, and every ACK is for it |
| InviteOverNetwork.OldAckConfirmsNewFinal | internal/sip/server.go:377-425 | Both theorems end with the server transaction: a copy of the INVITE that arrives after its end starts a second one, and the old ACK, repeated by the network, confirms a final the client never received |
| Absorption.CopiesAbsorbed | internal/sip/transaction_noninvite_server.go:84-159 | REGISTER over UDP, many branches, delays differing by less than T1, every timer value and every client user: a copy written up to 63*T1 that arrives after the user has seen the request finds the transaction that Timer J still holds, and only replays |
| Absorption.CopiesBeforeTimerF | internal/sip/transaction_noninvite_client.go:118-147 | So if T1 divides T2, every copy that Timer E writes before 64*T1 is absorbed |
| ExactlyOnce.SeenAtMostOnce | internal/sip/server.go:395-425 | If Timer E cannot fire in the last T1 before Timer F and the client users keep their channels free, the server's user sees each branch at most once in every run |
| ExactlyOnce.DefaultIsNeverLate | internal/sip/transaction.go:15-20 | The server's T1, T2 and T4 meet the condition |
| ExactlyOnce.EvenIsNeverLate | internal/sip/transaction_noninvite_client.go:130-147 | So does every T2 that is an even multiple of T1 |
| RegisterRouting.PlainDecided | internal/sip/server.go:302-425 | Routing a REGISTER outside the known dialogs that is no loop absorbs it if its branch is held and hands it up under a new transaction otherwise |
| RegisterRouting.RegistersRouted | internal/sip/server.go:302-425 | Every run over such requests is a run of the routing: same branches held, same number of times handed up |
| RegisterRouting.HandedUpOnce | internal/sip/server.go:395-425 | So under the conditions of `ExactlyOnce.SeenAtMostOnce` handleRequest hands each of them up at most once |
| AbsorptionLimit.SeenTwice | internal/sip/transaction_noninvite_client.go:130-147 | Whenever Timer E can fire in that last T1, a concrete run hands one request to the user twice, although the client hears only what the server wrote, within the delay bounds, and its channel is kept free |
| AbsorptionLimit.AbsorptionIsExact | internal/sip/server.go:395-425 | For all timer values: on all such networks, responses written by the server and under the same delays, and with channels kept free, no request is seen twice if and only if Timer E cannot fire in the last T1 before Timer F |
| AbsorptionLimit.UnreadSeenTwice | internal/sip/transaction_noninvite_client.go:121-146 | Without reading users, for every timer value: one unread response the server wrote makes Timer F wait, Timer E goes on, and a run without any delay hands one request to the user twice |
| AbsorptionLimit.DividingIsNotEnough | internal/sip/transaction.go:15-18 | That T1 divides T2 is not enough: T2 = T1 fails |
| Transactions.LookupsAreExact | internal/sip/transaction.go:102-127 | Over every run, a lookup finds exactly the open transaction of its branch at all times if and only if no branch is ever added while one is open under it |
| Transactions.OlderRemovesNewer | internal/sip/transaction.go:110-127 | Otherwise, after every run: the end of the older transaction takes the newer one, still open, out of the table |
| Transactions.NewerLost | internal/sip/transaction.go:110-127 | The run of three uses, for every branch and every two transactions |
| Transactions.NewInviteServerTx | internal/sip/transaction_invite_server.go:37-60 | A transaction in its first state under the top branch; none without a readable top Via or without a branch |
| Transactions.NewNonInviteServerTx | internal/sip/transaction_noninvite_server.go:35-59 | The same for the other server transaction |
| Transactions.NewInviteClientTx | internal/sip/transaction_invite_client.go:40-55 | A transaction in its first state under the top branch, which may be empty; none without a readable top Via |
| Transactions.NewNonInviteClientTx | internal/sip/transaction_noninvite_client.go:40-55 | The same for the other client transaction |
| Dispatch.SIPServer.LoopDetected | internal/sip/server.go:310-339 | True exactly when all Vias parse and one names this server, 5060 being the default port |
| Dispatch.LoopExactly | internal/sip/server.go:310-339 | Over every readable list of Vias: a loop if and only if some entry names this server's host and port, an entry without a port counting as 5060 |
| Dispatch.OwnViaLoops | internal/sip/server.go:310-339 | So a request that carries the Via this server writes comes back as a loop |
| Dispatch.DialogNamed | internal/sip/server.go:341-345 | A request's dialog is its Call-ID and the tags of From and To, in this order |
| Dispatch.NewRequest | internal/sip/server.go:380-425 | Under a new branch INVITE and UPDATE start an INVITE server transaction, REGISTER and BYE the other one; these four are handed up, and no other method changes the table |
| Dispatch.HeldRequest | internal/sip/server.go:359-400 | Under a held branch: ACK reaches an INVITE server transaction only, CANCEL goes its own way, every other copy is absorbed or, for a client transaction, ignored; the table stays |
| Dispatch.AckReachesInvite | internal/sip/server.go:365-425 | Every run: the ACK under the branch of an INVITE reaches its transaction as long as that is held |
| Dispatch.CopyReachesServer | internal/sip/server.go:392-400 | Every run: so does every copy of a stateful request |
| Dispatch.SIPServer.NewServerTx | internal/sip/transaction_noninvite_server.go:35-59 | A server transaction is registered under the top branch; no Via or no branch creates none |
| Dispatch.SIPServer.HandleRequest | internal/sip/server.go:302-426 | For every text, the outcome and the new transaction table are those of the routing definition |
| Dispatch.SIPServer.Route | internal/sip/server.go:310-426 | The same for a parsed request: loop check, dialogs, then everything else |
| Dispatch.SIPServer.RouteOutside | internal/sip/server.go:359-425 | The same for a request outside dialogs |
| Dispatch.SIPServer.RouteAck | internal/sip/server.go:365-377 | An ACK goes to an INVITE server transaction of its branch or is dropped |
| Dispatch.SIPServer.RouteNew | internal/sip/server.go:380-425 | A held branch absorbs the copy, a new one becomes a transaction by its method, an old-style branch or another method is handled statelessly |
| Dispatch.SIPServer.HandleResponse | internal/sip/server.go:272-298 | A response is given to the client transaction of its top Via branch, if there is one, and dropped otherwise |
| Dispatch.ResponseFindsClient | internal/sip/server.go:278-298 | The response a server builds for a request that carries this server's own Via is given to exactly the client transaction with that branch, whatever other headers it adds |
| Dispatch.CopyHandedUp | internal/sip/server.go:341-402 | A request under a branch a transaction holds is handed to a user again exactly when it is not an INVITE and lies in a known dialog |
| Dispatch.ByeHandedUpTwice | internal/sip/server.go:341-356 | A BYE in a dialog, received twice under one branch, is handed to the user twice |
| Dispatch.OncePerTransaction | internal/sip/server.go:395-425 | Every run: each branch not used by in-dialog requests or own client transactions was handed up as often as its transaction was closed, plus once if one is open |
| CloseOnce.EntryOutside | internal/sip/transaction_invite_server.go:76-184 | Every entry point of every machine takes and gives back the mutex in matching pairs |
| CloseOnce.RunSound | internal/sip/transaction_invite_client.go:66-142 | The lock and close invariant holds in every interleaving of any number of goroutines, write failures included |
| CloseOnce.ClosedOnce | internal/sip/transaction_invite_client.go:66-79 | `done` is closed at most once and only in Terminated; a Terminated transaction is closed, about to be closed, or was ended by the INVITE client's 2xx branch and is never closed |
| CloseOnce.WaitsForItself | internal/sip/transaction_noninvite_client.go:66-116 | A goroutine waits for the mutex it holds exactly when one of its writes failed under it; never if all writes succeed |
| CloseOnce.HolderMoves | internal/sip/transaction_noninvite_server.go:69-95 | If no write failed, whoever waits for the mutex waits for another goroutine that can move |
| CloseOnce.SuccessLeavesDoneOpen | internal/sip/transaction_invite_client.go:130-139 | A run in which the client is Terminated, everyone has finished and `done` is open |
| CloseOnce.FailedWriteJams | internal/sip/transaction_invite_server.go:186-193 | In each machine a failed write under the mutex leaves the goroutine waiting for itself |
| Registrar.Expires | internal/sip/parser.go:442-462 | The first numeric `expires=` parameter of Contact, else the Expires header, else 3600 |
| Registrar.NoParamWithoutText | internal/sip/parser.go:445 | Leaving out the guard in front of the parameter loop would change nothing |
| Registrar.Server.AddOrUpdateContact | internal/sip/server.go:617-643 | A known contact keeps its place with the new expiry, a new one goes to the end; other users untouched |
| Registrar.Server.RemoveContact | internal/sip/server.go:645-665 | The contact is gone, the order of the others kept, an empty list dropped |
| Registrar.Server.UpdateContact | internal/sip/server.go:598-614 | One contact, bound or removed by the sign of the expiry; a `>` before the `<` stops the program |
| Registrar.CrossedBrackets | internal/sip/server.go:598-614 | A REGISTER with Contact `><` stops the program, whatever the expiry |
| RegisterText.RegisterMeans | internal/sip/server.go:580-615 | In header text and bindings: a REGISTER whose Contact lists URIs in angle brackets binds each of them to the authenticated user for the seconds of its Expires header, 3600 without one, or removes them if that is not positive, and touches no other binding |
| RegisterText.RegisterWithParam | internal/sip/parser.go:442-462 | The same for a contact with an expires parameter, which overrides the header |
| RegisterText.RegisterClears | internal/sip/server.go:588-593 | The wildcard with expiry zero removes exactly the user's bindings |
| Registrar.Server.UpdateContacts | internal/sip/server.go:598-614 | The loop performs one command per contact up to the first that cannot be sliced |
| Registrar.Server.UpdateRegistration | internal/sip/server.go:580-615 | A REGISTER amounts to exactly its list of commands: wildcard clear, or binds or removals; and whether the program stops |
| Registrar.Server.Settle | internal/sip/server.go:498-521 | Stores the unexpired entries of the list read before and returns the first, or 480 |
| Registrar.Server.RouteInvite | internal/sip/server.go:494-521 | Both sections with nobody between them: a prune in one step, and the contact it finds |
| Registrar.EntriesAfter | internal/sip/server.go:580-665 | Exactly which entries each command leaves, for every user |
| Registrar.PerformTidy | internal/sip/server.go:580-665 | Every command keeps lists non-empty and contacts distinct |
| Registrar.PerformRefines | internal/sip/server.go:580-665 | Every command does to the lists what put, remove, clear or expire does to the finite map (user, contact) to expiry |
| Registrar.RegistrarRefines | internal/sip/server.go:580-665 | Over every sequence of commands the lists stay tidy and agree with the finite map |
| Registrar.ListsOldestFirst | internal/sip/server.go:617-665 | Every list is ordered by when its bindings were added |
| Registrar.InviteTarget | internal/sip/server.go:498-521 | 480 exactly when no binding is unexpired; otherwise the unexpired binding that was added first |
| Registrar.SplitPruneTidy | internal/sip/server.go:494-513 | Non-emptiness and distinctness survive every interleaving with the two critical sections of any number of INVITEs |
| Registrar.SettleEffect | internal/sip/server.go:494-513 | In every interleaving, when an INVITE settles: an unexpired binding survives if and only if it is another user's or its contact is unexpired in the list read before, and a contact that is not bound appears if and only if it is unexpired in that list |
| Registrar.SettleIsPrune | internal/sip/server.go:500-512 | The second section does what a prune in one step does exactly when the unexpired entries of the list read are still those of the current list |
| Registrar.SplitPruneLosesBinding | internal/sip/server.go:494-513 | A run in which a contact bound between the two sections is lost although unexpired |
| Registrar.SplitPruneRevivesBinding | internal/sip/server.go:494-513 | A run in which a contact removed between the two sections comes back |
| Nonces.SIPServer.GenerateNonce | internal/sip/server.go:684-690 | The nonce is stored with an expiry five minutes ahead |
| Nonces.SIPServer.ValidateNonce | internal/sip/server.go:692-708 | Good exactly when stored and not past its expiry; used up in either case |
| Nonces.SIPServer.CreateUnauthorizedResponse | internal/sip/server.go:675-682 | 401 with the challenge for exactly the nonce just stored |
| Nonces.SIPServer.HandleRegister | internal/sip/server.go:540-578 | 200 and a change of bindings exactly when parameters, nonce, user and digest are all right; 400, 401, the new nonce store and the stop on an unreadable contact otherwise |
| Nonces.NonceAccounting | internal/sip/server.go:684-708 | Every interleaving: issued nonces are exactly the consumed, the expired-on-use and the outstanding ones; each passes at most once and at most five minutes after issue |
| Nonces.AnswersBounded | internal/sip/server.go:540-578 | The handlers answered 200 are at most the nonces that passed, and those at most the issued ones |
| Nonces.HandlerIsARun | internal/sip/server.go:540-578 | Handling one REGISTER without interruption is a run of the interleaving machine, with the same store and answer |
| Challenges.ChallengeReads | internal/sip/server.go:675-682 | A client reads out of the challenge exactly the realm and nonce put into it |
| Challenges.RefusalSays | internal/sip/server.go:675-682 | The 401 carries it |
| Challenges.AcceptanceSays | internal/sip/server.go:667-674 | The 200 repeats the contacts with the expiry that was granted, and the date |
| Challenges.PassesExactly | internal/sip/server.go:540-578 | Every run of the handler: a REGISTER passes if and only if it has the four digest parameters, names a known user, answers with the digest of its password, and presents a nonce an earlier REGISTER was challenged with at most five minutes ago and nobody has presented since |
| Challenges.NoReplay | internal/sip/server.go:692-708 | So no two REGISTERs pass with the same nonce |
| SessionTimer.ParseSessionExpires | internal/sip/parser.go:391-412 | Computes the interval and refresher, or the error, the reference gives |
| SessionTimer.TimerReads | internal/sip/parser.go:391-423 | A Session-Expires header with a number, or its compact form, is read as that interval |
| SessionTimer.TimerWithRefresherReads | internal/sip/parser.go:391-423 | With a refresher parameter too |
| SessionTimer.MinSEReads | internal/sip/response.go:52-65 | A Min-SE header with a number is read as that number |
| SessionTimer.OwnTimerReadsBack | internal/sip/b2bua.go:245 | The timer value the B2BUA writes parses to the same interval, refreshed by the caller |
| B2bua.GetTag | internal/sip/server.go:764-773 | The first `tag=` parameter, or nothing |
| B2bua.B2BUA.CreateVirtualUACInvite | internal/sip/b2bua.go:133-182 | The outgoing INVITE has the body of the caller's, its own dialog headers, and the caller's other headers |
| B2bua.B2BUA.CreateVirtualUASResponse | internal/sip/b2bua.go:301-327 | The caller's response: headers copied from its own INVITE, the callee's other headers, Contact and To tag on a 2xx |
| B2bua.B2BUA.RetryInterval | internal/sip/b2bua.go:198-200 | The Min-SE of a 422 that can be retried, and nothing otherwise |
| B2bua.B2BUA.Retry | internal/sip/b2bua.go:202-217 | The retry differs from the last attempt in Session-Expires, CSeq and Via only |
| B2bua.B2BUA.AddTimer | internal/sip/b2bua.go:237-253 | A 2xx without a readable timer gets the interval the caller asked for |
| B2bua.B2BUA.StartAttempt | internal/sip/b2bua.go:219-229 | A new client transaction, or 500 |
| B2bua.B2BUA.Forward | internal/sip/b2bua.go:255-274 | One response to the caller; the call is over on a final |
| B2bua.B2BUA.HandleResponse | internal/sip/b2bua.go:191-274 | One response of the callee, handled as the call machine says |
| B2bua.B2BUA.Mediate | internal/sip/b2bua.go:185-298 | The loop with its recursion on 422 computes the fold of the call machine over all events |
| B2bua.B2BUA.Run | internal/sip/b2bua.go:41-130 | The whole call, the rejections before the callee is tried included |
| B2bua.B2BUA.Admit | internal/sip/b2bua.go:47-116 | 400, 422, 500 or 503 before the callee is tried, or the INVITE for it |
| B2bua.ShortIntervalRefused | internal/sip/b2bua.go:47-71 | A caller that asks for less than 1800 seconds gets 422 with Min-SE 1800 |
| B2bua.UnreadableIntervalRefused | internal/sip/b2bua.go:51-55 | One whose interval cannot be read gets 400 |
| B2bua.OthersAdmitted | internal/sip/b2bua.go:73-126 | Every other caller is tried if the target is a URI that can be reached |
| B2bua.OthersRefused | internal/sip/b2bua.go:73-116 | And answered 503 if it cannot, 500 if it is no URI |
| B2bua.CallTells | internal/sip/b2bua.go:185-298 | Completeness, for every stream of events: the caller is told, one by one and in order, each answer of the callee up to the first final that is not a retried 422, with its status and reason, 408 when nothing comes, and nothing else |
| B2bua.FinalExactly | internal/sip/b2bua.go:185-298 | The caller is handed a final, as the last response, if and only if the callee's final or a 408 comes before the caller goes away |
| B2bua.MediationAccounted | internal/sip/b2bua.go:185-298 | Everything handed to the caller is the B2BUA's own 408 or 500 or the translation of an answer that is no retryable 422 |
| B2bua.RetryableNotForwarded | internal/sip/b2bua.go:197-235 | Every 422 the caller of a call that was not rejected gets is the translation of an answer of the callee that is itself a 422 whose Min-SE is missing, malformed or not positive |
| B2bua.LegsStaySeparate | internal/sip/b2bua.go:301-327 | Every call, every response: Via, From, Call-ID and CSeq are those of the caller's own INVITE |
| B2bua.OutgoingHeaders | internal/sip/b2bua.go:133-182 | The INVITE for the callee: request URI, body, To and Contact, Via, Call-ID and CSeq |
| B2bua.LegContact | internal/sip/b2bua.go:301-327 | The caller's response has the callee's status and reason, and this server as Contact on a 2xx only |
| B2bua.TimerRequired | internal/sip/b2bua.go:246-252 | A 2xx that gets an interval also requires the timer extension |
| B2bua.OwnFromTag | internal/sip/b2bua.go:155-160 | The callee's leg gets the generated From tag exactly when no other tag parameter is left in front of it |
| B2bua.OlderTagStays | internal/sip/b2bua.go:155-160 | For every From whose tag parameter has a blank in front of it the callee's leg reads the caller's tag |
| B2bua.OlderTagWitness | internal/sip/b2bua.go:155-160 | With `<sip:a>; tag=b` the callee's leg reads `b`, not the generated tag |
| B2bua.DialogHasTag | internal/sip/b2bua.go:317-323 | A 2xx for the caller has a To tag exactly unless its INVITE carried an empty tag parameter |
| B2bua.EmptyTagStays | internal/sip/b2bua.go:317-323 | For every To in the caller's INVITE that is a name followed by `;tag=` each 2xx goes out without a To tag |
| B2bua.EmptyTagWitness | internal/sip/b2bua.go:317-323 | `<sip:a>;tag=` is such a To |
| B2bua.OtherHeadersPass | internal/sip/b2bua.go:143-150 | Headers that belong to neither dialog pass unchanged from the caller's INVITE to the callee and from the callee's response to the caller |
| B2bua.TagAppended | internal/sip/b2bua.go:320-322 | Appending a tag gives a header value that tag exactly when it had none |
| B2bua.TimedExactly | internal/sip/b2bua.go:238-253 | A 2xx keeps the callee's readable timer and otherwise gets exactly the interval asked for |
| B2bua.TimerTranslated | internal/sip/b2bua.go:301-315 | Translating a response to the caller's leg leaves its timer as it is |
| B2bua.TimerGuaranteed | internal/sip/b2bua.go:238-257 | Every call of a caller that asked for a timer, malformed or missing callee timers included: each 2xx it gets has a readable timer |
| B2bua.OneFinalAndLast | internal/sip/b2bua.go:41-130 | For every stream of events the caller's transaction is handed at most one final, as its last response |
| B2bua.CallDrivesServer | internal/sip/b2bua.go:185-298 | Composed with the INVITE server machine: state never moves back, nothing is written in Confirmed or Terminated |
| B2bua.CallIsFrozen | internal/sip/b2bua.go:185-298 | Composed: in Completed and Confirmed the wire carries only copies of the call's one error final, which belongs to the caller's leg |
| B2bua.RetryChained | internal/sip/b2bua.go:202-217 | A retry of the n-th attempt is a proper (n+1)-th attempt |
| B2bua.RetryChain | internal/sip/b2bua.go:133-235 | Every stream of answers: the n-th attempt has CSeq `n INVITE`, the Call-ID, From, To and body of the first and a Via that reads back with its branch; the later attempts answer the retryable 422s one by one in order, each with Session-Expires equal to that Min-SE |
| B2bua.RetryAsks | internal/sip/b2bua.go:197-217 | In header text: a 422 with Min-SE n is answered by an attempt with Session-Expires n |

## Left out

- `internal/web`, `internal/storage`, `cmd/server` and the templates: HTTP, SQL and start-up code; the user table is an input.
- `app_guidance.go`: WebRTC, audio decoding and RTP through libraries that are not part of this model.
- `digest.go`: the digest is an uninterpreted function.
- Sockets, DNS, logging and randomness: writes go to a trace, resolution succeeds or fails as an input, generated values are inputs.
- B2BUA teardown (`Cancel`, `Disconnect`, `cleanup`), in-dialog requests and re-INVITEs, and the session refresh timers after a call is set up.
- The CANCEL the B2BUA sends the callee when the caller goes away: mediation just ends.
- The body of a callee's response: the code does not copy it to the caller either.
- The branch of `handleInvite` that checks tags, realm and guidance users before the registrar is asked.
- A bound on the number of 422 retries: the code has none.
- Delivery of every final to the user of a client transaction: a full channel drops responses, and the model does so too.
- Replay of the first 100: the code does not store it, so a repeated INVITE before any other response is not answered.
- Text outside ASCII, folded header lines and integer overflow.
- Draining a client's channel by the server's own BYE users: they do not, so the theorems that need it are about users that do.
- InviteServer.InviteServerTx.constructor: takes a request with a usable top Via; the refusal of others is in `Transactions.NewInviteServerTx`.
- InviteClient.InviteClientTx.constructor: takes a request with a readable top Via; the refusal of others is in `Transactions.NewInviteClientTx`.
- NonInviteServer.NonInviteServerTx.constructor: takes a request with a usable top Via; the refusal of others is in `Transactions.NewNonInviteServerTx`.
- NonInviteClient.NonInviteClientTx.constructor: takes a request with a readable top Via; the refusal of others is in `Transactions.NewNonInviteClientTx`.
- InviteServer.InviteServerTx.Send: a write always succeeds here; failed writes and the Terminate after them are in `CloseOnce`.
- NonInviteServer.NonInviteServerTx.Send: a write always succeeds here; failed writes and the Terminate after them are in `CloseOnce`.
- InviteClient.InviteClientTx.SendAck: a write always succeeds here; failed writes and the Terminate after them are in `CloseOnce`.
- InviteOverNetwork.ConfirmedMeansAcked: one server transaction; a second one from a late copy of the INVITE is outside it.
- InviteOverNetwork.OneFinalAgreed: one server transaction, as above.
- ExactlyOnce.SeenAtMostOnce: assumes channels kept free; what holds for every user is `Absorption.CopiesAbsorbed`.
- AbsorptionLimit.AbsorptionIsExact: over runs with channels kept free, as above.
- NonInviteClient.Lifetime: assumes a channel emptied whenever Timer F fires; a Timer F that waits for room has no deadline.
- B2bua.B2BUA.Run: whether the callee's address resolves and connects is one input for the three branches that all answer 503.

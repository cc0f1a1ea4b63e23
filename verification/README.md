# MyTeams, verified

MyTeams is a chat server with a command-line client. They speak MTP/1.0: a six-byte header (code and
payload size, network byte order) and a payload of fixed-width, NUL-padded fields. The server is one
`poll` loop over a map of connections, a tree of teams, channels, threads and replies, a log of private
messages, and one session and one context per descriptor. This project models both programs and the wire
between them, and proves what every run keeps.

## How the model is laid out

- `Octets`, `Bits`, `Words`: byte strings, NUL-padded fields, byte order. Bit vectors stay in `Bits` and `Words`;
  everywhere else a 64-bit timestamp is the eight octets it has in memory.
- `Protocol`, `Records`: the codes, the header, the payload layouts of `doc/RFC.md` as one table, the server's
  encoder and the client's readers.
- `ServerData`, `Handlers`: the server's data as a value, and each request as a function from data to data and
  result. The id that `uuid_generate` returns and the time that `time` returns are parameters.
- `System`: the transition system. A step is a new connection, a chunk read, some bytes written, or a hang-up;
  one read may serve many requests. `Run(w, steps)` is the state after any list of steps, where `w` says what
  ids and times the requests get, one of each per request. What is proved of a run asks of `w` only that the ids of the
  requests it serves are NUL-free and pairwise distinct (`WorldOk(w, n)` for n requests); `Supply` exhibits such a `w` for
  16^36 requests. Connections and the server carry a history (bytes read and written, requests, queued packets,
  events, logins) that the server never looks at.
- `Invariants`, `Soundness`, `Reachable`, `Connections`: what one request does, then what all runs keep.
- `Framing`, `Reads`, `Delivery`, `ClosedLoop`: the two byte streams, however they are cut into reads and writes,
  and the loop they close.
- `Presence`, `Relogin`, `Announcements`, `Watching`, `Creation`, `CreatedContent`, `Conversations`, `Membership`, `Identity`,
  `Describing`, `RoundTrips`: the laws of the single features. `Requests`: every request from its bytes to the new data and
  the reply's bytes.
- `Screens`, `Shows`: the display library's calls for every packet, argument by argument.
- `Commands`, `Typed`, `Simulation`, `Stranded`: the client's lines, tokens and requests, and its own record of `/use` against the
  context the server keeps.
- `Store`, `Business`, `Server`, `Tokenizer`, `Readers`, `Client`: the same programs in the form they are
  written in, as classes with fields, loops over vectors and cursors, proved equal to the functions above.
  `Server.Server` records its steps, and `Valid` says that the object is where `Run` leads, so every theorem about
  runs holds of it. `Client.Client` records what was typed, and `Valid` says that what it sent or will send is a function
  of that.

## What fails, and exactly when

- Presence events do not balance when a descriptor that holds a user's only session logs in as somebody else: the
  session is overwritten without a LOGGED_OUT event (`src/server/handlers/mtp_auth.cpp:46-49`).
  `Presence.PresenceLaw` counts these overwritings, `Presence.WhenAbandoned` says which logins cause one,
  `Presence.WhenNobodyIsDropped` says over whole runs when there is none, and `Relogin.PresenceFails` is a run that has one.
  `is_logged` is wrong about a user exactly while its last session was overwritten and it has not logged in since.
- One name does not mean one id once a login name is longer than 32 bytes: it is compared whole and stored cut
  (`src/server/handlers/mtp_detail.hpp:94-109`). The same long name twice gives two ids (`Relogin.IdentityFails`); a
  long name followed by its own first 32 bytes gives two names one id (`Relogin.TwoNamesOneId`).
  `Identity.WhenOneNameOneId` has the exact condition on the sequence of names, and
  `Identity.WhenNamesStayDistinct` the one for stored names.
- The client's record of `/use` runs ahead of the server when a `/use` is refused, because it is set before the
  answer comes. `Simulation.LevelsDecide` says when a `/create` built from it is called invalid,
  `Simulation.RefusedUseMisleads` shows the case, and `Stranded.RefusedUseHappens` a run that comes to it.

## Where the code and its documents disagree

The model follows the code. `doc/RFC.md:239` and `doc/RFC.md:243` show broadcasts that reach their originator, but
`src/server/Server.cpp:225-226` skips it. `doc/RFC.md:216-217` and `README.md:36` promise saving and loading, which no
code does. `README.md:112` wants all values quoted, but `src/client/Command_parser.cpp:45-47` takes bare
words. `ERR_ALREADY_EXISTS` (`include/protocole.hpp:67`) is never answered. `doc/RFC.md:108-110` gives ERR_UNKNOWN_* an
id; the fallbacks in `mtp_create.cpp`, `mtp_list.cpp` and `mtp_info.cpp` send none, and are shown to be unreachable.

## Model

| member | source | states |
|---|---|---|
| Octets.Trim | src/server/handlers/mtp_detail.hpp:86-92 | the result is a NUL-free prefix that ends only at a NUL or at the end |
| Octets.TrimFixed | src/client/Helpers.cpp:10-27 | text packed into a field and read back is the text up to its first NUL or the field's width |
| Words.HostNet | src/client/Helpers.cpp:29-36 | reading a number in network byte order undoes writing it |
| Words.NetDigits | src/server/handlers/mtp_detail.hpp:31-58 | 16- and 32-bit numbers go on the wire with their most significant octet first |
| Words.SwapsAgree | src/server/handlers/mtp_detail.hpp:60-68 | the server's htonll from two swapped halves is the client's eight-mask swap, and both undo themselves |
| Words.AppendFlips | src/server/handlers/mtp_detail.hpp:70-74 | the bytes of htonll(v) are the bytes of v back to front |
| Words.ReadFlips | src/client/Helpers.cpp:44-62 | the masks applied to eight loaded bytes give the word whose bytes are those back to front |
| Words.Int64Back | src/client/Helpers.cpp:44-62 | every 64-bit value, negative ones too, survives append_i64 and read_i64 |
| Words.SwapOut | src/server/handlers/mtp_detail.hpp:70-74 | what append_i64 appends is the timestamp's memory image back to front |
| Words.SwapIn | src/client/Helpers.cpp:44-62 | what read_i64 returns has the payload's eight bytes back to front as its image |
| Protocol.HeaderBack | src/server/handlers/mtp_detail.hpp:31-46 | code, size and payload of a message are read back from the front of a stream, and the rest is the rest |
| Protocol.HeaderBytes | src/client/Packet.cpp:10-26 | a message is two octets of code and four of payload size, most significant first, and then the payload |
| Records.ListWellFormed | doc/RFC.md:78-101 | a counted payload of records that fit has exactly the tabulated length, and its count is the number of records |
| Records.ListBack | src/client/Server_response.cpp:61-100 | the client's counted loops read exactly the server's records, in order, and leave no byte |
| Records.OnceBack | src/client/Server_response.cpp:18-60 | a one-record reply reads back as its fields, each text cut at its first NUL, and leaves no byte |
| Records.CursorEnds | src/client/Server_response.cpp:14-135 | decoding any payload of the right size ends with the cursor at the payload's end |
| RoundTrips.ListDecodes | src/server/handlers/mtp_list.cpp:40-154 | in every reachable state /list answers under the code of its level all teams, the team's channels, the channel's threads or the thread's replies and nothing else, one record an entity, in order, every field named |
| RoundTrips.LocateLeads | src/server/handlers/mtp_detail.hpp:149-185 | a context leads to the first team of its id, the first channel of its id in that, the first thread of its id in that, and to a refusal exactly where an id is missing |
| RoundTrips.UsersDecode | src/server/handlers/mtp_users.cpp:28-40 | the user list decodes to every user in order, with status 1 exactly for those with a session |
| RoundTrips.SubscribedUsersDecode | src/server/handlers/mtp_subscriptions.cpp:180-200 | the member list decodes to the members, nobody dropped, in order, each with its stored name and status |
| RoundTrips.SubscribedTeamsDecode | src/server/handlers/mtp_subscriptions.cpp:124-142 | the team list decodes to exactly the teams that have the user as a member, each once, in the order of the teams |
| Describing.UserDecodes | src/server/handlers/mtp_users.cpp:53-79 | /user decodes to the user of that id with its status, or echoes the id if there is none |
| Describing.LoginDecodes | src/server/handlers/mtp_auth.cpp:51-57 | a login reply decodes to the id of the new session and the given name cut to 32 bytes |
| Describing.InfoIsListed | src/server/handlers/mtp_info.cpp:63-144 | /info inside a team decodes to the very record that /list shows for that entity one level up |
| Describing.InfoCode | src/server/handlers/mtp_info.cpp:43-144 | in every reachable state the code that answers /info is that of the context's level, and of no other |
| Describing.UseCode | src/server/handlers/mtp_context.cpp:43-221 | the code that answers a /use that goes through is that of the level it asks for |
| Describing.InfoDecodes | src/server/handlers/mtp_info.cpp:43-144 | /info decodes to the fields of the very team, channel or thread the context stands on, or to the account of the user at the root |
| Describing.InfoAtRoot | src/server/handlers/mtp_info.cpp:43-61 | /info without a context decodes to the id and name of the session's user |
| Describing.UseAnswersInfo | src/server/handlers/mtp_context.cpp:43-221 | a /use that goes through answers what /info answers right after it |
| Describing.HandleEchoes | src/server/handlers/mtp_context.cpp:74-202 | every reachable ERR_UNKNOWN_* carries the 36 bytes of the request that named nothing |
| Requests.NoSession | src/server/Server.cpp:240-251 | without a session any request but a login is answered ERR_UNAUTHORIZED and changes nothing |
| Requests.NoSuchRequest | src/server/Server.cpp:299-307 | a code outside 0x01 to 0x0D is answered ERR_INVALID_COMMAND and changes nothing |
| Requests.LoginAnswered | src/server/handlers/mtp_auth.cpp:24-72 | a login opens, in no context, a session of the first user of that name, or of a new user with the next id; the reply is id and stored name, byte by byte |
| Requests.LogoutAnswered | src/server/handlers/mtp_auth.cpp:74-138 | a logout ends exactly that session and context, marks the user by its other sessions, and answers its id and stored name, byte by byte |
| Requests.UsersAnswered | src/server/handlers/mtp_users.cpp:18-41 | CMD_USERS is answered every user with its status and changes nothing |
| Requests.UserAnswered | src/server/handlers/mtp_users.cpp:43-80 | CMD_USER answers the three cases, short payload, unknown id, known user, byte by byte |
| Requests.SendAnswered | src/server/handlers/mtp_messages.cpp:21-88 | CMD_SEND stores the letter exactly if its 36 bytes name a registered user, and answers its three cases; a body that comes short is empty |
| Requests.HistoryAnswered | src/server/handlers/mtp_messages.cpp:90-146 | CMD_MESSAGES answers the letters exchanged with a registered user, or its two refusals, and changes nothing |
| Requests.SubscribeAnswered | src/server/handlers/mtp_subscriptions.cpp:19-60 | CMD_SUBSCRIBE puts the sender at the end of that team's members, once, and answers the same 36 bytes, or its two refusals |
| Requests.UnsubscribeAnswered | src/server/handlers/mtp_subscriptions.cpp:62-109 | CMD_UNSUBSCRIBE takes exactly the sender out of that team's members and answers the same 36 bytes, or its three refusals |
| Requests.TeamsAnswered | src/server/handlers/mtp_subscriptions.cpp:111-143 | CMD_SUBSCRIBED without a 1 in front is answered the user's teams and changes nothing |
| Requests.MembersAnswered | src/server/handlers/mtp_subscriptions.cpp:145-201 | CMD_SUBSCRIBED with a 1 and an id is answered the team's members, for members only, or its three refusals |
| Requests.UseAnswered | src/server/handlers/mtp_context.cpp:20-226 | CMD_USE, field by field: level and length, team, membership, channel, thread, in this order; the context and code of the level, or a refusal that names the missing id and changes nothing |
| Requests.InfoAnswered | src/server/handlers/mtp_info.cpp:20-149 | CMD_INFO is answered what the context stands on, under its level's code, and changes nothing |
| Requests.ListAnswered | src/server/handlers/mtp_list.cpp:18-159 | CMD_LIST is answered what lies below the context, under its level's code, and changes nothing |
| Requests.TeamCreated | src/server/handlers/mtp_create.cpp:45-78 | at the root CMD_CREATE with 287 bytes appends a team without channels and with its creator as only member; reply and event carry the new id and the bytes sent |
| Requests.ChannelCreated | src/server/handlers/mtp_create.cpp:80-124 | in a team a member's CMD_CREATE with 287 bytes appends a channel without threads to that team and changes nothing else; reply and event carry the new id and the bytes sent |
| Requests.ThreadCreated | src/server/handlers/mtp_create.cpp:126-182 | in a channel a member's CMD_CREATE with 544 bytes appends a thread without replies; reply and event carry id, creator, time in network order and the bytes sent |
| Requests.ReplyCreated | src/server/handlers/mtp_create.cpp:184-246 | in a thread a member's CMD_CREATE with 512 bytes appends a reply; reply and event carry the thread's id, creator, time in network order and the bytes sent |
| Invariants.LocateGrows | src/server/handlers/mtp_detail.hpp:149-185 | a context that resolves goes on resolving to the same place while vectors grow at their ends |
| Invariants.LoginKeeps | src/server/handlers/mtp_auth.cpp:24-72 | a login with a fresh id keeps the whole data invariant |
| Invariants.LogoutKeeps | src/server/handlers/mtp_auth.cpp:74-138 | a logout keeps the whole data invariant |
| Invariants.UnsubscribeKeeps | src/server/handlers/mtp_subscriptions.cpp:91-99 | erasing one match keeps member lists free of duplicates and everything else of the invariant |
| Soundness.HandleOk | src/server/Server.cpp:240-310 | in a reachable state every request draws one reply of a code its table allows, with the layout of that code; events have event codes, their layout and distinct targets; the ERR_UNKNOWN_* fallbacks of create, list and info never show |
| Soundness.HandleEffect | src/server/Server.cpp:240-310 | every request keeps the data invariant, touches no other descriptor's session or context, never moves a user or an entity, and leaves the context its own code and reply determine |
| Reachable.DispatchKeeps | src/server/Server.cpp:240-310 | one dispatched request keeps the invariant of the whole server |
| Reachable.DisconnectKeeps | src/server/Server.cpp:192-209 | a disconnection keeps it and leaves the descriptor neither connected nor with a session |
| Reachable.RunKeeps | src/server/Server.cpp:103-139 | after every run: contexts and sessions have the same descriptors, all connected; sessions and members name users; ids are distinct; every context resolves; a session implies is_logged |
| Reachable.FreshDescriptor | src/server/Server.cpp:72-85 | a new connection has neither session nor context, even on a reused descriptor |
| System.RunIsMoves | src/server/Server.cpp:103-174 | every run of poll steps is a run of single requests, so what these keep holds after every run |
| Supply.CounterIsSupply | src/server/handlers/mtp_detail.hpp:111-116 | ids counted in 36 hexadecimal digits are NUL-free and distinct for 16^36 requests |
| Supply.SuppliesExist | src/server/handlers/mtp_detail.hpp:111-116 | so the assumption on ids can be met by runs of any length up to 2^64 requests |
| Framing.NoWrap | src/server/Server.cpp:150-160 | the 32-bit size sum does not wrap, because the cap is checked first |
| Framing.ParseMore | src/server/Server.cpp:146-174 | parsing a stream in two parts is parsing it whole: same requests, same leftover, same verdict |
| Framing.ChunksDoNotMatter | src/server/Server.cpp:87-101 | any cutting into reads gives the requests, leftover and oversize verdict of one parse |
| Framing.ParseMessages | src/client/Packet.cpp:10-26 | frames of at most 65535 payload bytes come back whole and in order |
| Framing.OversizeStops | src/server/Server.cpp:146-156 | the first frame of more than 65535 payload bytes ends the parse with the oversize verdict, after exactly the frames before it |
| Reads.ProcessServesParse | src/server/Server.cpp:146-174 | the loop over the receive buffer dispatches exactly the requests of the parse, then disconnects exactly if it met an oversized header |
| Reads.ReadServesTheStream | src/server/Server.cpp:87-174 | after any run, one more read serves exactly what the parse of all bytes ever read adds, and drops the connection if and only if that parse is oversized |
| Connections.RunKeepsConns | src/server/Server.cpp:211-310 | after every run and on every connection: the queued frames without events are one reply to each request, in order, of an allowed code; the requests are the parse of the bytes read; written plus unsent bytes are the queued frames; every frame has its layout; the context is what the connection's own requests and replies lead to |
| Connections.CopiesOnce | src/server/Server.cpp:219-230 | a push to distinct targets is queued once to each of them and to nobody else |
| Delivery.PrefixYieldsPrefix | src/client/Network.cpp:31-51 | a prefix of the stream yields a prefix of its frames, and the whole stream all of them |
| Delivery.ClientFollowsQueue | src/client/Network.cpp:10-51 | after any run, any chunking of any part of what was written yields the first queued frames in order, each decoding to its last byte; all of them once all is read |
| ClosedLoop.ReplyWas | src/server/Server.cpp:219-310 | the n-th reply in a connection's queue is what the server answered when it served the connection's n-th request |
| ClosedLoop.LoopCloses | src/client/Network.cpp:10-51 | the n-th packet a client reacts to that is no event is the server's answer to the n-th request the client issued, however both streams were cut |
| Presence.PresenceLaw | src/server/handlers/mtp_auth.cpp:44-135 | on every run, LOGGED_IN minus LOGGED_OUT events of a user are 1 or 0 as a session exists or not, plus the times its last session was overwritten, so they agree exactly if that never happened; is_logged agrees with the sessions exactly if it never happened or the user has logged in since |
| Presence.WhenAbandoned | src/server/handlers/mtp_auth.cpp:44-49 | a login overwrites a user's last session exactly if it comes on that session's descriptor under somebody else's name |
| Presence.OthersAbandonNobody | src/server/Server.cpp:253-309 | a request other than a login overwrites no session |
| Presence.WhenNobodyIsDropped | src/server/handlers/mtp_auth.cpp:24-72 | over any run, no last session is ever overwritten if and only if no login comes on the descriptor of a user's only session under somebody else's name |
| Presence.SteadyRunsBalance | src/server/handlers/mtp_auth.cpp:44-135 | on runs where no descriptor holding a session logs in as another user, every user's events balance to 1 or 0 as a session exists or not, and is_logged says the same |
| Watching.WatcherSees | src/server/handlers/mtp_auth.cpp:59-135 | while a connection stays logged in, LOGGED_IN minus LOGGED_OUT events for a user in its own queue change exactly as whether the user has a session does, plus the overwritings meanwhile |
| Announcements.LoginReaches | src/server/handlers/mtp_auth.cpp:44-69 | a login is announced exactly if its user had no session: once to every other session, with the reply's payload, and to nobody else |
| Announcements.LogoutReaches | src/server/handlers/mtp_auth.cpp:109-135 | a logout is announced exactly if it ends the user's last session: once to every other session and to nobody else |
| Announcements.DisconnectReaches | src/server/Server.cpp:192-209 | a lost connection is announced like a logout, leaves no session, and leaves the other connections' received bytes alone |
| Announcements.OthersTellNobody | src/server/Server.cpp:253-309 | every request but login, logout, send and create is answered to its sender and puts nothing into any other queue |
| Relogin.PresenceFails | src/server/handlers/mtp_auth.cpp:44-69 | a run after which a user without a session was announced in and never out, and stays marked as logged in |
| Relogin.IdentityFails | src/server/handlers/mtp_detail.hpp:94-109 | a run in which two logins under one 33-byte name get two ids and one stored name |
| Relogin.TwoNamesOneId | src/server/handlers/mtp_detail.hpp:94-109 | a run in which a 33-byte name and its first 32 bytes get one id |
| Creation.CreateIsLocal | src/server/handlers/mtp_create.cpp:45-246 | a creation that goes through appends one record below the sender's context and leaves every other list, member, user, session, context and message alone; one that does not changes nothing |
| Creation.CreateReaches | src/server/handlers/mtp_create.cpp:68-123 | a creation queues its event once to each other session that may hear of it (everybody for a team, members for what lies inside) and nothing to anybody else; a refused one reaches only its sender |
| CreatedContent.CreateShowsWhatWasTyped | src/server/handlers/mtp_create.cpp:52-243 | a client-built /create that goes through decodes to the new id or the thread's, creator, time, and the words typed, each cut to its field or first NUL |
| Conversations.Symmetric | src/server/handlers/mtp_messages.cpp:120-129 | both sides get the same history |
| Conversations.HistoryIsSubsequence | src/server/handlers/mtp_messages.cpp:120-129 | a history is exactly the letters between the two users, in the order they were sent |
| Conversations.TypedSend | src/client/Individual.cpp:44-54 | the line /send with two quoted arguments issues exactly the request that carries them |
| Conversations.SendExtendsOneHistory | src/server/handlers/mtp_messages.cpp:51-63 | a message to a registered user, online or not, extends the history of its two users by one letter and no other; one to anybody else changes nothing |
| Conversations.SendDecides | src/server/handlers/mtp_messages.cpp:31-68 | a message is accepted exactly if its receiver is the id of a registered user; an unknown id comes back, any other length is invalid |
| Conversations.HistoryDecides | src/server/handlers/mtp_messages.cpp:100-143 | a history is answered exactly if the other is the id of a registered user, with the same two refusals |
| Conversations.MessageArrives | src/server/handlers/mtp_messages.cpp:131-145 | a message typed at one client to any registered user is listed at either party's with sender, receiver, time, and the body up to 512 bytes or its first NUL |
| Conversations.SendReaches | src/server/handlers/mtp_messages.cpp:67-87 | a private message is queued, as the sender's 36 bytes and the body's 512, once to each other session of the receiver and to nobody else |
| Membership.EveryMemberFound | src/server/handlers/mtp_subscriptions.cpp:180-186 | looking the members up drops nobody and keeps their order |
| Membership.ViewsAgree | src/server/handlers/mtp_subscriptions.cpp:124-186 | a team is among a user's teams exactly if the user is among the team's users, who are listed once |
| Membership.SubscribeJoins | src/server/handlers/mtp_subscriptions.cpp:19-60 | a subscription adds exactly the sender to exactly the first team of that id, and succeeds exactly if there is one |
| Membership.UnsubscribeLeaves | src/server/handlers/mtp_subscriptions.cpp:62-109 | an unsubscription ends exactly that one membership, and succeeds exactly if it existed |
| Identity.StoredName | src/server/handlers/mtp_detail.hpp:86-109 | trimming a stored name gives the name back, or its first 32 bytes |
| Identity.WhenNamesStayDistinct | src/server/handlers/mtp_auth.cpp:28-42 | a login keeps stored names distinct exactly if its name fits, or no stored name equals its first 32 bytes |
| Identity.LongNamesNeverMatch | src/server/handlers/mtp_auth.cpp:28-42 | every login under a name of more than 32 bytes makes another user |
| Identity.IdentityLaw | src/server/handlers/mtp_auth.cpp:28-42 | on every run two logins get the same id exactly if the same login founded their user: the login itself for a long name, else the first that stored the name |
| Identity.WhenOneNameOneId | src/server/handlers/mtp_auth.cpp:28-42 | on every run names and ids correspond one to one if and only if no name over 32 bytes comes twice and none is followed by its own first 32 bytes unless these had come before it |
| Identity.OneNameOneId | src/server/handlers/mtp_auth.cpp:24-72 | on runs whose names fit, stored names are distinct and two logins get the same id exactly if they use the same name |
| Identity.ClientNamesFit | src/client/Individual.cpp:10-19 | a login built by the client carries the typed name cut to 32 bytes, so it always fits |
| Commands.LinesMore | src/client/stdin_handling.cpp:18-36 | splitting the input into lines does not depend on where it is cut |
| Commands.LinesSpellInput | src/client/stdin_handling.cpp:18-36 | the lines with their newlines and the unfinished line are the input, and none of them contains a newline |
| Commands.StdinChunksDoNotMatter | src/client/stdin_handling.cpp:10-36 | the requests issued, the record of /use and the unfinished line depend on the bytes typed alone |
| Commands.ParserUndoesPrinter | src/client/Command_parser.cpp:10-51 | a name and any quoted or bare tokens, printed with one or more spaces before each, parse back to exactly that name and those arguments |
| Commands.IssuedSmall | src/client/Individual.cpp:10-195 | every request of every session is within the server's cap |
| Typed.LoginTyped | src/client/Individual.cpp:10-19 | /login with one argument puts the name in 32 bytes on the wire under CMD_LOGIN, with any other number nothing |
| Typed.LogoutTyped | src/client/Individual.cpp:21-25 | /logout puts CMD_LOGOUT on the wire |
| Typed.UsersTyped | src/client/Individual.cpp:27-31 | /users puts CMD_USERS on the wire |
| Typed.UserTyped | src/client/Individual.cpp:33-42 | /user with one argument puts the id in 36 bytes under CMD_USER, with any other number nothing |
| Typed.SendTyped | src/client/Individual.cpp:44-54 | /send with two arguments puts the id in 36 bytes and the body in 512 under CMD_SEND, with any other number nothing |
| Typed.MessagesTyped | src/client/Individual.cpp:56-65 | /messages with one argument puts the id in 36 bytes under CMD_MESSAGES, with any other number nothing |
| Typed.SubscribeTyped | src/client/Individual.cpp:67-76 | /subscribe with one argument puts the id in 36 bytes under CMD_SUBSCRIBE, with any other number nothing |
| Typed.SubscribedTyped | src/client/Individual.cpp:78-91 | /subscribed puts a 0, or with one argument a 1 and the id, under CMD_SUBSCRIBED, with more nothing |
| Typed.UnsubscribeTyped | src/client/Individual.cpp:93-102 | /unsubscribe with one argument puts the id in 36 bytes under CMD_UNSUBSCRIBE, with any other number nothing |
| Typed.UseTyped | src/client/Individual.cpp:104-143 | /use with up to three ids puts their number and the ids under CMD_USE and records them, with more nothing |
| Typed.CreateTyped | src/client/Individual.cpp:145-183 | /create puts the fields of the client's own level under CMD_CREATE, with a wrong number of arguments nothing |
| Typed.ListTyped | src/client/Individual.cpp:185-189 | /list puts CMD_LIST on the wire |
| Typed.InfoTyped | src/client/Individual.cpp:191-195 | /info puts CMD_INFO on the wire |
| Typed.UnknownTyped | src/client/Command_dispatch.cpp:10-28 | a command of any other name puts nothing on the wire and records nothing |
| Typed.NoSlash | src/client/Command_parser.cpp:14-18 | a line that does not start with a slash issues nothing |
| Typed.UnclosedQuote | src/client/Command_parser.cpp:29-44 | a line whose last quote is not closed issues nothing, whatever tokens come before it |
| Simulation.MirrorIsLastUse | src/client/Individual.cpp:104-143 | the client's record of /use is always what its last CMD_USE asks for, ids cut to 36 bytes |
| Simulation.ReplayIsLastUse | src/server/handlers/mtp_context.cpp:31-221 | after one login, no logout and answered uses only, the server's context is what the last CMD_USE asked for |
| Simulation.CreateInvalidIff | src/server/handlers/mtp_create.cpp:45-250 | in a reachable state a creation is called invalid exactly if its payload is shorter than the context's level asks for |
| Simulation.LevelsDecide | src/client/Individual.cpp:145-183 | a client-built /create is called invalid exactly for the five pairs of levels where the server wants more bytes than the client sent |
| Simulation.ServerFollowsClient | src/client/Individual.cpp:104-183 | on an undisturbed connection, however its bytes were cut, the context at each request is the client's record when it issued it, and a /create is never called invalid |
| Simulation.RefusedUseMisleads | src/client/Individual.cpp:114-120 | after a refused /use from a channel, the next /create is called invalid |
| Stranded.RefusedUseHappens | src/client/Individual.cpp:104-183 | a run from the start that logs in, creates and enters a team and a channel comes to that state |
| Store.ServerStore.FindUserByName | src/server/handlers/mtp_detail.hpp:94-102 | the loop finds the first user whose trimmed name matches |
| Store.ServerStore.FindUserByUuid | src/server/handlers/mtp_detail.hpp:138-147 | the loop finds the first user of that id |
| Store.ServerStore.FindTeamByUuid | src/server/handlers/mtp_detail.hpp:149-158 | the loop finds the first team of that id |
| Store.ServerStore.FindChannelByUuid | src/server/handlers/mtp_detail.hpp:165-174 | the loop finds the first channel of that id in the team |
| Store.ServerStore.FindThreadByUuid | src/server/handlers/mtp_detail.hpp:176-185 | the loop finds the first thread of that id in the channel |
| Store.ServerStore.FindMember | src/server/handlers/mtp_detail.hpp:160-163 | the loop finds the first match among the members |
| Store.ServerStore.IsSessionOpen | src/server/handlers/mtp_detail.hpp:123-131 | the loop over the sessions finds one of the user exactly if there is one |
| Store.ServerStore.LoggedFds | src/server/handlers/mtp_detail.hpp:187-194 | all session descriptors, ascending, each once |
| Store.ServerStore.TeamMemberFds | src/server/handlers/mtp_detail.hpp:196-204 | exactly the session descriptors whose user is a member, ascending, each once |
| Store.ServerStore.FdsOfUser | src/server/handlers/mtp_messages.cpp:79-82 | exactly the descriptors on which the receiver is logged in, ascending, each once |
| Business.PackTeams | src/server/handlers/mtp_list.cpp:41-50 | the appends build the count and the records of the teams in order |
| Business.PackChannels | src/server/handlers/mtp_list.cpp:65-74 | the same for channels |
| Business.PackThreads | src/server/handlers/mtp_list.cpp:97-108 | the same for threads, timestamps in network byte order |
| Business.PackReplies | src/server/handlers/mtp_list.cpp:139-149 | the same for replies, under the context's thread id |
| Business.PackLetters | src/server/handlers/mtp_messages.cpp:131-141 | the same for private messages |
| Business.Business.PackUsers | src/server/handlers/mtp_users.cpp:28-36 | the same for users, with their status |
| Business.Business.PackAccount | src/server/handlers/mtp_info.cpp:43-57 | the account of a session, or its id and a blank name |
| Business.Business.HandleLogin | src/server/handlers/mtp_auth.cpp:24-72 | new data and result are those of the login specification |
| Business.Business.HandleLogout | src/server/handlers/mtp_auth.cpp:74-138 | new data and result are those of the logout specification |
| Business.Business.HandleUsers | src/server/handlers/mtp_users.cpp:18-41 | the result is that of the specification, and nothing changes |
| Business.Business.HandleUser | src/server/handlers/mtp_users.cpp:43-80 | the result is that of the specification, and nothing changes |
| Business.Business.HandleSend | src/server/handlers/mtp_messages.cpp:21-88 | new data and result are those of the specification; only the messages change |
| Business.Business.MessagesBetween | src/server/handlers/mtp_messages.cpp:120-129 | the filter loop yields the history of the two users |
| Business.Business.HandleMessages | src/server/handlers/mtp_messages.cpp:90-146 | the result is that of the specification, and nothing changes |
| Business.Business.HandleSubscribe | src/server/handlers/mtp_subscriptions.cpp:19-60 | new data and result are those of the specification; only the teams change |
| Business.Business.HandleUnsubscribe | src/server/handlers/mtp_subscriptions.cpp:62-109 | new data and result are those of the specification; only the teams change |
| Business.Business.TeamsWith | src/server/handlers/mtp_subscriptions.cpp:124-129 | the filter loop yields the user's teams in order |
| Business.Business.HandleSubscribedTeams | src/server/handlers/mtp_subscriptions.cpp:111-143 | the result is that of the specification, and nothing changes |
| Business.Business.UsersIn | src/server/handlers/mtp_subscriptions.cpp:180-186 | the lookup loop yields the users of the members in order |
| Business.Business.HandleSubscribedUsers | src/server/handlers/mtp_subscriptions.cpp:145-201 | the result is that of the specification, and nothing changes |
| Business.Business.HandleUse | src/server/handlers/mtp_context.cpp:20-226 | new data and result are those of the specification; only the contexts change |
| Business.Business.UseTeam | src/server/handlers/mtp_context.cpp:65-101 | the same at team level |
| Business.Business.UseChannel | src/server/handlers/mtp_context.cpp:103-153 | the same at channel level |
| Business.Business.UseThread | src/server/handlers/mtp_context.cpp:155-221 | the same at thread level |
| Business.Business.HandleList | src/server/handlers/mtp_list.cpp:18-159 | the result is that of the specification, and nothing changes |
| Business.Business.HandleInfo | src/server/handlers/mtp_info.cpp:20-149 | the result is that of the specification, and nothing changes |
| Business.Business.HandleCreate | src/server/handlers/mtp_create.cpp:22-251 | new data and result are those of the specification; only the teams change |
| Business.Business.CreateTeamHere | src/server/handlers/mtp_create.cpp:45-78 | the same without a context |
| Business.Business.CreateChannelHere | src/server/handlers/mtp_create.cpp:80-124 | the same in a team |
| Business.Business.CreateThreadHere | src/server/handlers/mtp_create.cpp:126-182 | the same in a channel |
| Business.Business.CreateReplyHere | src/server/handlers/mtp_create.cpp:184-246 | the same in a thread |
| Server.MakeMessage | src/server/handlers/mtp_detail.hpp:31-46 | the three appends build code, size and payload |
| Server.Server.QueueBytes | src/server/Server.cpp:211-217 | exactly the target's send buffer grows, by exactly the message; an unknown target is ignored |
| Server.Server.QueuePushes | src/server/Server.cpp:223-229 | the two loops queue every push to every target but the originator, in order |
| Server.Server.SendResult | src/server/Server.cpp:219-230 | all queues are as delivery specifies: the reply for the originator, the events for the others |
| Server.Server.Route | src/server/Server.cpp:240-308 | the switch does what the specification of the request does, whatever its code |
| Server.Server.Dispatch | src/server/Server.cpp:240-310 | the new state is that of the dispatch step |
| Server.Server.Disconnect | src/server/Server.cpp:192-209 | the new state is that of the disconnection: logged out, others told, buffers gone |
| Server.Server.ProcessRecvBuffer | src/server/Server.cpp:146-174 | the loop ends in the state that the recursion over frames defines |
| Server.Server.HandleNewConnection | src/server/Server.cpp:72-85 | the object is where its steps and an accept lead |
| Server.Server.HandleClientRead | src/server/Server.cpp:87-101 | the object is where its steps and a read or a hang-up lead |
| Server.Server.HandleClientWrite | src/server/Server.cpp:176-189 | the object is where its steps and a write or a hang-up lead; an empty buffer changes nothing |
| Server.Server.HandleHangup | src/server/Server.cpp:124-127 | the object is where its steps and a hang-up lead |
| Server.Server.Promises | src/server/Server.cpp:103-139 | at any time the running server keeps the data invariant, one reply a request, intact streams, idle buffers and the presence law |
| Tokenizer.Parse | src/client/Command_parser.cpp:10-51 | the nested index loops end on every line, with exactly the command the grammar gives |
| Tokenizer.QuotedText | src/client/Command_parser.cpp:29-39 | the loop stops at the next quote or at the end, with the text in between |
| Readers.PackFixed | src/client/Helpers.cpp:10-17 | the two loops append the text cut to the field, or padded with NULs |
| Readers.ReadFixed | src/client/Helpers.cpp:19-27 | text and cursor are those of the field reader; too few bytes leave the cursor |
| Readers.ReadU32 | src/client/Helpers.cpp:29-36 | count and cursor are those of the reader |
| Readers.ReadU8 | src/client/Helpers.cpp:38-42 | octet and cursor are those of the reader |
| Readers.ReadI64 | src/client/Helpers.cpp:44-62 | timestamp and cursor are those of the reader |
| Shows.AccountShows | src/client/Server_response.cpp:18-109 | logins and logouts, own or announced, show id and name; a login's reply makes its 36 bytes the client's own id, a logout's reply alone stops the client |
| Shows.UserShows | src/client/Server_response.cpp:31-35 | one user shows id, name and status, the account at the root -1 for its status |
| Shows.IdShows | src/client/Server_response.cpp:29-106 | a subscription shows the client's own id and then the team's; an ERR_UNKNOWN_* its id, each by its own call |
| Shows.TeamShows | src/client/Server_response.cpp:36-117 | team replies and events show id, name, description, each by its own call |
| Shows.ChannelShows | src/client/Server_response.cpp:42-121 | the same for channels |
| Shows.TopicShows | src/client/Server_response.cpp:48-127 | thread replies and events show id, creator, time, title, body, each by its own call |
| Shows.ReplyShows | src/client/Server_response.cpp:56-60 | a reply of one's own shows thread, creator, time, body |
| Shows.ReplyEventShows | src/client/Server_response.cpp:128-134 | somebody else's reply shows the team of the client's record of /use, thread, creator, body, and no time |
| Shows.NoteShows | src/client/Server_response.cpp:110-113 | an incoming message shows sender and body |
| Shows.BareShows | src/client/Server_response.cpp:28-107 | an accepted message shows nothing, every refusal without an id one call without arguments |
| Shows.OtherCodesShowNothing | src/client/Server_response.cpp:14-135 | a code that no server sends does nothing |
| Shows.StopsOnLogoutAlone | src/client/Server_response.cpp:14-135 | whatever the payload, only code 0x11 stops the client and only code 0x10 renames it, and nothing shown is taken back |
| Shows.UserListShows | src/client/Server_response.cpp:61-74 | a user list shows one call a user, in order: id, name, status |
| Shows.TeamListShows | src/client/Server_response.cpp:67-74 | a team list shows one call a team, in order: id, name, description |
| Shows.ChannelListShows | src/client/Server_response.cpp:67-75 | the same for channels |
| Shows.ThreadListShows | src/client/Server_response.cpp:76-84 | one call a thread, in order: id, creator, time, title, body |
| Shows.ReplyListShows | src/client/Server_response.cpp:85-92 | one call a reply, in order: thread, creator, time, body |
| Shows.HistoryShows | src/client/Server_response.cpp:93-100 | one call a letter, in order: its author, time, body; never its receiver |
| Shows.CutsDoNotShow | src/client/Network.cpp:10-51 | what a stream shows does not depend on where it was cut into reads |
| Exchanges.TypedMessageIsSeen | src/client/Server_response.cpp:93-100 | /send typed by one user and /messages typed by the other: the second screen shows one call more than before, with the author's id, the time, and the body as far as its field holds it |
| Client.Client.ListUsers | src/client/Server_response.cpp:61-66 | the counted loop shows exactly the records of the payload, in order |
| Client.Client.ListPlaces | src/client/Server_response.cpp:67-72 | the same for teams and channels |
| Client.Client.ListThreads | src/client/Server_response.cpp:76-84 | the same for threads |
| Client.Client.ListReplies | src/client/Server_response.cpp:85-92 | the same for replies |
| Client.Client.ListMessages | src/client/Server_response.cpp:93-100 | the same for messages, without their receiver |
| Client.Client.HandleResponse | src/client/Server_response.cpp:14-135 | for every code the screen, the own id and the running flag become those of `React`, which the lemmas of `Shows` spell out call by call |
| Client.Client.ProcessRecvBuffer | src/client/Network.cpp:31-51 | the loop reacts to exactly the complete frames in order and keeps the rest |
| Client.Client.HandleServerRead | src/client/Network.cpp:10-21 | the receive buffer is the leftover of everything heard; end of stream only stops the client |
| Client.Client.HandleServerWrite | src/client/Network.cpp:23-29 | whatever write returns, written plus unsent bytes stay the same stream |
| Client.Client.SendPacket | src/client/Packet.cpp:10-26 | the outgoing stream grows by exactly that packet |
| Client.Client.CmdUse | src/client/Individual.cpp:104-143 | record of /use and packet are those of the specification |
| Client.Client.CmdCreate | src/client/Individual.cpp:145-183 | the packet is that of the specification at the client's level |
| Client.Client.Dispatch | src/client/Command_dispatch.cpp:10-28 | every command issues what `Perform` says, which the lemmas of `Typed` spell out packet by packet |
| Client.Client.HandleLines | src/client/stdin_handling.cpp:20-35 | all complete lines are taken in order, and what is issued continues the session |
| Client.Client.HandleStdin | src/client/stdin_handling.cpp:10-36 | whatever chunk came in, everything issued and the unfinished line are functions of all bytes typed |

## Left out

- Sockets, `poll`, signals, `close`, start-up and shutdown: they appear only as the steps they cause (a descriptor accepted, a chunk read, bytes written, a peer gone).
- Calls into `libs/myteams` (`server_event_*`, `client_print_*`, `client_event_*`): on the client each call and its arguments are the observable output; on the server they are dropped.
- `uuid_generate` and `time`: an id that is NUL-free and differs from those of the requests served so far, and any 64-bit time; nothing is claimed about the order of times.
- The kernel's promises: `accept` makes a descriptor that no connection uses, and `write` reports no more bytes than it was given. The methods of `Server.Server` require them, and `HandleClientRead` that the ids handed out while it runs are new; in `System.Next` a step that breaks them changes nothing.
- Saving and loading the server's state: no code does it.
- Payloads of 2^32 bytes and more: the size and count casts are modelled, but a claim about a frame's layout is made only when its payload fits the size field.
- `user_t::fd` and the `use_*` fields of `ClientState`: nothing reads them.
- Terminating NULs and the capacity of vectors: ids are their 36 bytes, and no allocation fails.
- Reads past the end of a short string (`append_fixed` with `kUuidWireSize` on a session id): the specification pads with NULs; session ids are shown to have 36 bytes in every reachable state, and the handlers of the class require it.
- References into vectors: what a handler holds of a user, team, channel or thread is the index it was found at.
- The header of a reply is put on when the packet is queued, not inside each handler, so that the history can hold packets.
- The poll loop's order of descriptors and its choice of POLLIN before POLLOUT: any order of steps is a run.
- The check after each dispatch that the descriptor is still connected: no dispatch disconnects.
- `/help`, usage texts, parse-error texts and "Unknown command": they print and send nothing.
- Big-endian hosts.

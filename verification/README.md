# Chat server: stores, sessions, channels and wire format

A Dafny model of a poll-driven chat server that keeps its users, channels and messages in keyed
databases, its connected users in a fixed array, and speaks a header-plus-ETX-separated-fields protocol.

| file | content |
|---|---|
| `CStrings.dfy` | `strtok` splitting, body buffers, `compare_strings`, `tokenize_malloc` |
| `Records.dfy` | records, limits, outcomes |
| `ActiveUsers.dfy` | the 255-slot cache as a class that refines a sequence |
| `Accounts.dfy` | the three user tables, the session handlers, bijection, sessions, agreement |
| `UpdateRequest.dfy` | the update-channel grammar, its reader and its printer |
| `Channels.dfy` | 64-slot lists, the in-place merge, the channel store, create and update |
| `Replies.dfy` | measure-then-fill buffers and forwarding |
| `Runs.dfy` | the state machine and what its runs keep |
| `Server.dfy` | the server object, each handler proved to take its step |
| `Witnesses.dfy` | runs from the start of the server in which a property fails |
| `Wire.dfy`, `Connection.dfy` | header codec, dispatch streams, and from bytes to runs |

How to read it:

- A handler ends in `Reply(code)` or in `Fault`. A fault is a failed assertion, a NULL dereference or a
  write outside a buffer; it ends the run. A login from a second address (result 9) runs into a failing
  assertion when it is answered, so it faults.
- Each handler is a function on values; the imperative form, over arrays, loops and object fields, is
  proved equal to it, and the run theorems are about the functions.
- `Leads(guard, s, es, t)` says that the events `es` lead from `s` to `t` without a fault, each passing
  the guard. `Admissible` holds what the surroundings promise: random identifiers are fresh, client
  addresses are never "0", and a scan of the channel store sees every key. Identifiers and key order are
  parameters of the step.
- `Careful`, `Orderly`, `Gentle` and `Naming` are the exact conditions on one event under which the code
  keeps its tables, sessions, references and channel names. They look at the state before the event only,
  and each comes with an if-and-only-if lemma: `CarelessBreaks`, `StepAttended`, `AgreesIffGentle`,
  `StepNaming`. `Witnesses` shows runs in which they are violated.

Where the code and its comments differ, the model follows the code: admin creation checks only the
display name; destroy removes the display name of the request but the account of the token, never evicts
the cache, and accepts a sender whose name or password matches, although the comment asks for both;
an update looks users up under the old name after renaming; a publicity change alone writes a blank name;
a message to an unknown channel faults while anybody is connected, because forwarding looks the channel up again.

## Model

| member | source | states |
|---|---|---|
| `Runs.RunsKeepTheTables` | src/server.c:211-286 | From an empty store, every run of admin creation, user creation, login, logout, channel and message requests and matched destroys keeps name table, account table and login table in bijection, with equal sizes |
| `Runs.CarelessBreaks` | src/server.c:296-395 | The guard of those runs is exact and can be checked before the call: for every tidy state and admissible step, the bijection survives if and only if a destroy that is granted names one account and admin creation takes nobody's token |
| `Runs.EveryRunIsSound` | src/server.c:1514-1564 | In every run, from any sound state: offline exactly when the stored address is "0", privilege 1 exactly for "admin" (accounts and cache), packed member lists with the creator first, one administrator per channel; and no channel, creator, administrator or member is ever lost |
| `Runs.LogoutInRuns` | src/server.c:592-635 | After every run a logout with a name field answers 0, 2, 4 or 500 and never faults; "not online" is answered for the administrator only; codes 1 and 3 are unreachable |
| `Runs.ScansAgreeInRuns` | src/my_ndbm.c:353-363 | After every run the 64-slot membership scan agrees with the scans that stop at the first blank, and the creator is a member |
| `Runs.RunsHaveNoTwins` | src/server.c:495-503 | In every run whatsoever from a cache without twins: no two live entries come to share descriptor, name and address |
| `Runs.RunsKeepSessions` | src/server.c:453-503 | From any sound state with everybody attended (an empty cache with nobody online is one), through every orderly run, careful or not: every online account has a live entry under its name and at its stored address |
| `Runs.StepAttended` | src/server.c:637-644 | Orderliness is exact: a step without a fault leaves everybody attended if and only if it is no restart under an online account and no logout that takes another online account's last entry |
| `Runs.TendedRunsKeepSessions` | src/server.c:453-503 | In careful runs, where names are not shared, that holds without a condition on logouts |
| `Runs.OnlineAddressesHold` | src/server.c:451-467 | While everybody is attended, no step moves an account that stays online to another address |
| `Runs.RestartKeepsSessions` | src/main-chat-server.c:85-88 | Blanking the cache leaves everybody attended exactly when no account is online |
| `Runs.RunsAgree` | src/server.c:2063-2076 | In every gentle run each live entry agrees with the tables on token, uuid, name and privilege, and each message has an existing author and channel |
| `Runs.DestroyKeepsReferences` | src/server.c:364-374 | A matched destroy keeps that agreement exactly when no live entry and no message refers to the account |
| `Runs.PlainRunsAgree` | src/main-chat-server.c:225-229 | A server that first creates its administrator keeps agreement, bijection and equal sizes in every run without destroy requests, whatever else happens |
| `Runs.PosterIsAuthor` | src/server.c:806-854 | A stored message's author, reached through cache name, cached token and login record, is the uuid that the name table gives for the poster; the account under it bears the poster's name; the channel is the one named; no other message changes |
| `Runs.MessageAnswers` | src/server.c:793-872 | A complete message is stored exactly when its channel exists and its poster is live; otherwise "no such channel" with an empty cache, and a fault in all other cases |
| `Runs.PostAnswers` | src/server.c:793-872 | For every body of name, channel, text and stamp within their limits and a name other than "200": answer 0 if and only if the channel exists and the name is live, and then exactly one message is stored, under the poster's uuid and an id of that channel; the other answers with their conditions, and nothing stored |
| `Runs.AckIsIgnored` | src/server.c:775-780 | Every body whose first piece is "200" answers 69 and leaves the messages alone |
| `Runs.IncompleteMessage` | src/server.c:775-804 | Any other body with a missing or overlong field is a fault |
| `Runs.UnreadableBodies` | src/server.c:881-890 | An empty body answers 500 from the channel handlers and is a fault elsewhere; a body of 1024 bytes or more is a fault; neither changes anything |
| `Runs.AuthorsEndure` | src/server.c:1080-1084 | Through every gentle run a stored message stays unchanged and its author's uuid keeps leading to the same display name |
| `Runs.PostedIsFound` | src/server.c:793-854 | Wherever in a gentle run a message is posted, it is found in the final state, its author bears the poster's display name, and its channel exists |
| `Runs.AgreesIffGentle` | src/server.c:296-395 | Gentleness is exact: under an admissible step the agreement survives if and only if the step is gentle |
| `Runs.PlainRunsAreGentle` | src/main-chat-server.c:225-229 | Runs without destroy requests on a booted server are gentle |
| `Runs.ForwardedToMembers` | src/server.c:97-110 | In every run a successful create-message sends one delivery per live entry whose name is a member of the named channel, in cache order and to no other entry: to that entry's descriptor and address, with "200", ETX and the original body |
| `Runs.ForwardedFields` | src/server.c:1919-1921 | A receiver that splits a delivery finds "200" and then the posted fields |
| `Runs.HistoryIsReadable` | src/server.c:1078-1084 | After every gentle run the history loop finds the account of every author it looks up |
| `Runs.StepNaming` | src/server.c:1422-1429 | Under every admissible step channel names stay unique if and only if the step renames to a name that no other channel holds |
| `Runs.RunsKeepNamesUnique` | src/my_ndbm.c:165-193 | In such runs names stay unique, so lookup by scanning does not depend on the key order |
| `Accounts.LogoutAnswers` | src/server.c:592-635 | Exact conditions for each logout answer in a state with sound records, in spite of the fall-through |
| `Accounts.CreateAnswers` | src/server.c:230-265 | The four answers of user creation and exactly when each is given; a created user is then found under name and token, offline, and his password is accepted |
| `Accounts.LoginAnswers` | src/server.c:424-503 | Exact conditions for each login answer; on success exactly the account's address and status change, and the cache gains at most the one entry that mirrors them |
| `Accounts.LoginAgainFromSameAddress` | src/server.c:451-503 | Another login from the address where all the account's entries are answers 0 |
| `Accounts.LoginFromSecondAddress` | src/server.c:451-462 | A login of an online account that is live at another address faults and changes no table |
| `Accounts.AdminIsRaised` | src/server.c:1605-1618 | Whatever the record said before, login leaves the account called "admin" with privilege 1 and raises no other |
| `Accounts.AdminAsCreated` | src/my_ndbm.c:684-723 | The created administrator: zero uuid, privilege 1, offline, and "admin" logs in with "admin" |
| `Accounts.IncompleteUserBodies` | src/server.c:225-256 | Missing and overlong fields are faults in the four session handlers and change nothing |
| `Accounts.LogoutUndoesLogin` | src/server.c:403-644 | Login followed by logout of an offline user restores all tables and the cache |
| `Accounts.DestroyAnswers` | src/server.c:337-370 | Exact answers of destroy from a live sender: own name, own password or being administrator each suffice; what success removes |
| `Accounts.DestroyUndoesCreate` | src/server.c:258-370 | A successful destroy of a user just created restores the tables |
| `Accounts.AdminKeepsBijection` | src/my_ndbm.c:684-723 | Admin creation keeps the bijection if and only if the name "admin" is taken or the token "admin" is free |
| `Accounts.DestroyIsGranted` | src/server.c:337-370 | Destroy succeeds if and only if its fields are complete, its sender is live, the token is registered, and the sender gives his own name, his own password or is privileged; then exactly the named name, the token's account and the token go, otherwise nothing |
| `Accounts.DestroyKeepsBijection` | src/server.c:339-370 | A granted destroy keeps the bijection if and only if its display name and login token belong to one account |
| `Accounts.LogoutIsGranted` | src/server.c:592-644 | Logout succeeds if and only if the name is registered and its account online, for a regular user at that address; then the account goes offline and its first entry goes, otherwise nothing changes |
| `Accounts.LogoutKeepsAttended` | src/server.c:637-644 | A granted logout leaves everybody attended if and only if every other online account of that name has a further entry at its address |
| `Accounts.LoginKeepsAttended` | src/server.c:451-503 | A login that does not fault leaves every online account with an entry under its name and at its address |
| `Accounts.LoginKeepsNoTwins` | src/server.c:495-503 | A login that does not fault adds no twin |
| `Accounts.LoginKeepsAddress` | src/server.c:451-467 | A login that does not fault changes no account that is online already |
| `Witnesses.MismatchedDestroyBreaksTables` | src/server.c:359-370 | A run from the start of the server whose last event, a destroy with the sender's own name and another's token, breaks the bijection |
| `Witnesses.TakeOverBreaksSessions` | src/server.c:637-644 | Its continuation: the freed name is registered again and logged out, and the first account stays online without a live entry |
| `Witnesses.SelfDestroyBreaksAgreement` | src/server.c:364-374 | A careful run from the start of the server after which a live entry agrees with no table |
| `Witnesses.AdminCreationOrphansHeir` | src/my_ndbm.c:691-708 | Its continuation: the next admin creation leaves a user without a token |
| `Witnesses.RenameOntoUsedName` | src/my_ndbm.c:604-621 | A run from the start of the server, and then a successful rename that leaves two channels of one name |
| `Accounts.MixedUpDestroy` | src/server.c:359-370 | Every sender who gives his own name with another account's token succeeds and breaks the bijection |
| `Accounts.SizesAgree` | src/server.c:253-265 | In bijection the three tables have equally many records |
| `Accounts.CreateKeepsBijection` | src/server.c:233-265 | User creation with a fresh uuid keeps the bijection, whatever its answer |
| `Accounts.LoginKeepsBijection` | src/server.c:427-467 | Login keeps the bijection |
| `Accounts.LogoutKeepsBijection` | src/server.c:592-640 | Logout keeps the bijection |
| `Accounts.OneAdministrator` | src/server.c:1521-1530 | At most one account is privileged; it is called "admin" and has privilege 1 |
| `Accounts.LoginRecords` | src/server.c:1605-1618 | Login keeps address, status and privilege of accounts and entries consistent |
| `Accounts.LogoutRecords` | src/server.c:1625-1634 | Logout keeps them consistent |
| `Accounts.LogoutTouchesOneUser` | src/server.c:637-644 | A successful logout leaves all other users' entries, in order, and all other accounts as they were |
| `Accounts.LoginKeepsAgreement` | src/server.c:444-503 | Login keeps every live entry in agreement with the tables |
| `Accounts.LogoutKeepsAgreement` | src/server.c:637-644 | Logout keeps every live entry in agreement with the tables |
| `Accounts.DestroyKeepsAgreement` | src/server.c:364-370 | A matched destroy keeps the agreement of cache and tables exactly when nobody live bears the name |
| `ActiveUsers.Cache.constructor` | src/main-chat-server.c:85-88 | Zeroed slots are the empty sequence |
| `ActiveUsers.Cache.Count` | src/server.c:2042-2053 | The count is the length of the gap-free live prefix |
| `ActiveUsers.Cache.Insert` | src/server.c:2063-2087 | With a free slot, insertion appends one entry and keeps the slots gap-free |
| `ActiveUsers.Cache.Remove` | src/server.c:2096-2107 | Removal deletes exactly the first entry of that name and keeps the order and the gap-free form |
| `ActiveUsers.Cache.CloseGap` | src/server.c:2100-2103 | The shift loop moves the tail down by one and blanks the last name, leaving stale fields behind |
| `ActiveUsers.ClosedGap` | src/server.c:2100-2103 | After the shift the live entries are the old ones without the removed one, and no gap arises |
| `ActiveUsers.RemoveKeepsOthers` | src/server.c:2096-2107 | Removal under one name leaves everybody else's entries in order |
| `ActiveUsers.Cache.FindByName` | src/server.c:2154-2164 | Finds the first live entry of that name, never a stale slot |
| `ActiveUsers.Cache.FindByFd` | src/server.c:2173-2184 | Finds the first live entry of that descriptor, never a stale slot; none exactly when there is none |
| `ActiveUsers.Cache.HasSameCredentials` | src/server.c:2194-2211 | True exactly when a live entry has that descriptor, name and address |
| `ActiveUsers.Cache.NameAt` | src/server.c:2273-2286 | The name, exactly when a live entry has that name and address |
| `ActiveUsers.Cache.IsElsewhere` | src/server.c:451-462 | True exactly when that name is live at another address |
| `Channels.AddUsers` | src/my_ndbm.c:643-662 | The merged list is the old members, then the longest prefix of the request without an existing member, cut at 64 slots |
| `Channels.BlankMembers` | src/my_ndbm.c:643-655 | Although blanking stops later scans early, what is left before the first blank is exactly that prefix |
| `Channels.BlankOut` | src/my_ndbm.c:647-653 | One inner pass leaves the prefix up to the first entry equal to the member |
| `Channels.CopyFresh` | src/my_ndbm.c:656-662 | The second loop appends what is left while slots remain and touches nothing else |
| `Channels.MergeAppends` | src/my_ndbm.c:643-662 | Merging keeps the list packed and every member in its place |
| `Channels.MergeDistinct` | src/my_ndbm.c:656-662 | A duplicate-free request keeps a duplicate-free list duplicate-free |
| `Channels.ScansAgree` | src/my_ndbm.c:353-363 | In a packed list the full scan and the scan to the first blank agree |
| `Channels.InChannel` | src/my_ndbm.c:353-363 | True exactly when the non-blank name stands in some slot |
| `Channels.LookupOk` | src/my_ndbm.c:165-193 | The scan finds a record of that name exactly when one is stored, and returns it under its own key |
| `Channels.LookupIsFirst` | src/my_ndbm.c:165-193 | Among several records of one name the first in key order is found |
| `Channels.LookupOrderFree` | src/my_ndbm.c:165-193 | With unique names the result does not depend on the key order |
| `Channels.CreateChannelAnswers` | src/server.c:706-733 | For every body of name, user and one-character flag within their limits: 500 exactly without a live entry of that name and address, 404 exactly for an unregistered "admin", 409 exactly for a used channel name, 0 exactly otherwise; success adds one record with that name, creator, publicity and the creator as only member and administrator; 403 does not occur; otherwise the store is unchanged |
| `Channels.CreateChannelRefuses` | src/server.c:686-704 | One field or a long flag answers 400, two fields or an overlong name are faults |
| `Channels.GlobalExists` | src/my_ndbm.c:725-750 | After its creation the global channel exists; if it was new it is private, the administrator's, and he is its only member |
| `Channels.ReadChannelAnswers` | src/server.c:891-935 | For every body of fields: 400 below four fields, otherwise 0 exactly for a stored channel name and 404 else |
| `Channels.CreateChannelOk` | src/server.c:719-733 | Creation keeps channels sound, existing channels as they were, and names unique |
| `Channels.CreateGlobalOk` | src/my_ndbm.c:725-740 | So does the creation of the global channel |
| `Channels.ApplyGrows` | src/server.c:1421-1435 | Whatever its answer, an update keeps all channels, ids, creators, administrator and ban lists, and user lists only grow at the end |
| `Channels.ApplyFrame` | src/server.c:1376-1435 | With unique names at most the named channel's record changes, whatever the answer |
| `Channels.ApplyRefused` | src/server.c:1376-1420 | 404 exactly for an unknown channel or display name, a fault exactly for an accepted new name over its buffer; both leave the store unchanged |
| `Channels.ApplyEffect` | src/server.c:1421-1435 | With unique names an accepted update replaces exactly the named record: the written name and publicity, and the merged users only if the channel kept its name |
| `Channels.ApplyAnswers` | src/server.c:1421-1448 | With known names the answer is 0 if and only if the update leaves the name, or the user list under a new name, alone; every other update answers 500 and still stores the new name without the users; a rename without a publicity change resets the publicity |
| `Channels.ApplyUnique` | src/my_ndbm.c:597-621 | The update keeps names unique if and only if no other channel holds the name it writes |
| `Channels.UpdateRefused` | src/server.c:1192-1419 | A 400 or 404 answer leaves the store unchanged |
| `Channels.UpdateEndToEnd` | src/server.c:1162-1448 | The handler on the printed form of a request does to the stores what the request says, with its answer |
| `Channels.AddUsersEndToEnd` | src/server.c:1236-1435 | The body that adds users with flag "1": 404 exactly for an unknown or overlong name, otherwise 0, and the members of exactly that channel become the old ones and the longest fresh prefix of the list, cut at 64 |
| `Channels.SixListsEndToEnd` | src/server.c:1232-1435 | The body with all six lists under flag "3": one unknown name in any of them answers 404 and changes nothing; otherwise 0, and only the first list has an effect |
| `Channels.RenameAndPublish` | src/server.c:1203-1229 | The body with a new name and a publicity: 0, and exactly that channel gets both |
| `Channels.RenameOnly` | src/my_ndbm.c:597-621 | The body with a new name only: 0, and the channel becomes private |
| `Channels.PublishOnly` | src/server.c:1421-1448 | The body with a publicity only: 500, and yet the publicity is written and the name blanked |
| `Channels.TruncatedUpdateRefused` | src/server.c:1192-1376 | A body cut after any field but its last answers 400 and changes nothing |
| `UpdateRequest.UpdateRoundTrip` | src/server.c:1192-1374 | Every request with names of at most 20 characters that fits a body is read back from its printed form unchanged: name, flags and six lists |
| `UpdateRequest.QuietGroup` | src/server.c:1243-1245 | Flag "0" reads no list |
| `UpdateRequest.AddGroup` | src/server.c:1246-1262 | Flag "1", a count and that many names (at most 64) are an add list |
| `UpdateRequest.RemoveGroup` | src/server.c:1264-1278 | Flag "2", a count and that many names are a remove list |
| `UpdateRequest.AddRemoveGroup` | src/server.c:1247-1278 | Flag "3" reads an add list and falls through to a remove list |
| `UpdateRequest.OtherFlags` | src/server.c:1232-1281 | Any other single character reads no list; a longer flag is malformed |
| `UpdateRequest.SixLists` | src/server.c:1232-1376 | The groups come in the order users, administrators, banned users, each with its two lists |
| `UpdateRequest.RenameTokens` | src/server.c:1198-1229 | A flag "1" announces a new name or a publicity, "0" none; the publicity is on exactly for "1" |
| `UpdateRequest.TruncatedIsMalformed` | src/server.c:1192-1374 | No proper prefix of an accepted token list is accepted |
| `UpdateRequest.LeftoverIsMalformed` | src/server.c:1370-1376 | An accepted token list with anything after it is malformed |
| `UpdateRequest.CountedReads` | src/server.c:1248-1261 | A counted list takes as many tokens as the count says; more than 64 overrun it, missing tokens are malformed, a negative count reads none |
| `UpdateRequest.StrToLongReads` | src/server.c:1252-1252 | `strtol` reads an optional sign and a decimal numeral up to the first other character, saturating at 64 bits |
| `UpdateRequest.ParsedUpdateOk` | src/server.c:1192-1374 | Every accepted token list denotes a request, and printing that request parses to the same; with short tokens its names fit their buffers |
| `UpdateRequest.ReadGroups` | src/server.c:1232-1376 | The three switches one after the other, and 400 if a token is left |
| `UpdateRequest.ReadUpdate` | src/server.c:1192-1374 | The token-by-token reader computes the grammar, with its 400 answers and its overrun case |
| `UpdateRequest.ReadAlter` | src/server.c:1236-1281 | One switch with its fall-through from '3' into '2' |
| `UpdateRequest.ReadCounted` | src/server.c:1247-1259 | One counted loop, including negative counts, missing tokens and the 65th entry |
| `UpdateRequest.CountRoundTrip` | src/server.c:1252-1252 | A printed count is read back by strtol and the conversion to int |
| `CStrings.CompareStrings` | src/util.c:104-129 | True exactly when the strings are equal after deleting white space (hence an equivalence) |
| `CStrings.Tokenize` | src/util.c:40-88 | Exactly the delimiter-split pieces, each minus one trailing newline, then NULL, always within the doubling array |
| `CStrings.StrTok` | src/util.c:55-78 | One strtok call delivers the next piece and the place to go on |
| `CStrings.PiecesConserve` | src/util.c:55-78 | Pieces are non-empty and delimiter-free, and together they are the string without its delimiters |
| `CStrings.SplitJoined` | src/server.c:225-228 | Splitting ETX-separated fields gives the fields back |
| `CStrings.BodyRoundTrip` | src/server.c:213-228 | A body under 1024 bytes made of fields is read back as those fields |
| `CStrings.SplitBody` | src/server.c:213-228 | Reading a body yields the strtok pieces up to the first NUL, or the failed read, or the overrun |
| `Replies.BuildChannelNameList` | src/server.c:539-561 | The second pass fills exactly the size measured in the first: every name ended by ETX, then NUL |
| `Replies.ChannelNamesRoundTrip` | src/server.c:539-561 | Splitting the list gives the names back in order if and only if none is blank or holds ETX |
| `Replies.BuildMessageList` | src/server.c:1057-1109 | All writes stay inside the buffer, which ends up holding the history prefix and its terminator; when the fields survive splitting, the text splits into display name, text and time stamp of each message of the longest fitting prefix, in order |
| `Replies.BufferShows` | src/server.c:1090-1103 | A terminated buffer that holds the rendering of k messages splits into 3k pieces: for each message its author's display name, its text and its time stamp |
| `Replies.AllottedIs` | src/server.c:1065-1071 | The allotted size is the total text length and 33 characters per message |
| `Replies.FittingIsLongest` | src/server.c:1086-1088 | That prefix is the longest whose rendering is shorter than the allotted size |
| `Replies.LastIsOmitted` | src/server.c:1065-1088 | If any message matches, at least the last one is omitted |
| `Replies.Measure` | src/server.c:1065-1071 | The first pass allots text, time stamp and one ETX per matching message, and a terminator |
| `Replies.Recipients` | src/server.c:101-103 | Strictly increasing positions of exactly the live entries whose name is in the member list |
| `Replies.Forward` | src/server.c:101-110 | The forwarding loop, which recounts the cache each time, sends one delivery per member entry: its descriptor, its address, and the text behind "200" and ETX |
| `Replies.DeliveriesReachMembers` | src/server.c:101-110 | One delivery per member entry, in cache order, and no other: to the entry's descriptor and address, with "200", ETX and the original body |
| `Wire.HeaderRoundTrip` | src/server.c:185-199 | Unpacking a packed header gives back its 4/4/8/16-bit fields |
| `Wire.BytesRoundTrip` | src/server.c:2218-2240 | Packing unpacked bytes gives back the four bytes |
| `Wire.HeaderLayout` | src/server.c:185-199 | The bit layout: version and type are the high and low half of the first byte, the object is the second, the size is big-endian in the last two |
| `Wire.NextEncoded` | src/server.c:55-146 | One request takes exactly its header and body off the stream |
| `Wire.StreamRoundTrip` | src/server.c:55-146 | Any stream of well-formed dispatches decodes to the same dispatches in order |
| `Wire.DecodedIsEncoded` | src/server.c:27-146 | Conversely every stream that is taken completely is the encoding of well-formed dispatches |
| `Connection.ServingIsRunning` | src/server.c:27-146 | Serving an encoded stream ends in a state exactly when the run of the requests it encodes leads there without a fault |
| `Connection.BytesAreServed` | src/server.c:55-146 | The dispatch table in bytes: eight pairs of first bytes, each served by the step of its handler on the body's text, and then the rest of the stream |
| `Connection.ReadMessageBytes` | src/server.c:112-114 | A read-message request takes its body off the stream |
| `Connection.OtherBytes` | src/server.c:55-146 | Every other pair of first bytes: which types end the run, and that all others lose only their header |
| `Server.ChatServer.constructor` | src/main-chat-server.c:85-88 | Empty stores and a blank cache are the start of the state machine |
| `Server.ChatServer.CreateAdmin` | src/my_ndbm.c:684-723 | Takes exactly the admin-creation step |
| `Server.ChatServer.CreateUser` | src/server.c:211-286 | Takes exactly the create-user step and changes nothing else |
| `Server.ChatServer.DestroyUser` | src/server.c:296-395 | Takes exactly the destroy-user step and changes nothing else |
| `Server.ChatServer.LoginUser` | src/server.c:403-506 | Takes exactly the login step, over the slot array |
| `Server.ChatServer.Admit` | src/server.c:451-503 | The second half of that step: status, address, and at most one new entry |
| `Server.ChatServer.LogoutUser` | src/server.c:572-659 | Takes exactly the logout step, over the slot array |
| `Server.ChatServer.CreateChannel` | src/server.c:671-744 | Takes exactly the create-channel step |
| `Server.ChatServer.CreateGlobal` | src/my_ndbm.c:725-750 | Takes exactly the global-channel step |
| `Server.ChatServer.UpdateChannel` | src/server.c:1162-1448 | Takes exactly the update-channel step; only the channel store changes |
| `Server.ChatServer.ReadChannel` | src/server.c:881-935 | Answers 500, 400, 404 or 0 as the request and the store demand, and changes nothing |
| `Server.ChatServer.ApplyUpdate` | src/server.c:1376-1448 | The part after parsing, with its four lookups |
| `Server.ChatServer.RenameChannel` | src/my_ndbm.c:597-629 | Stores the first record of that name under its id with new name and publicity, or fails |
| `Server.ChatServer.AddUsersOnChannel` | src/my_ndbm.c:631-682 | Merges in place into a copy of the first record of that name and stores it back, or fails |
| `Server.ChatServer.CreateMessage` | src/server.c:754-872 | Takes exactly the create-message step; only the message store changes |
| `Server.ChatServer.FindChannel` | src/my_ndbm.c:165-193 | The scan in key order |
| `Server.ChatServer.IsTaken` | src/my_ndbm.c:325-351 | True exactly when some channel has that name |
| `Server.ChatServer.ForwardMessage` | src/server.c:100-110 | Looks the channel up again and sends each live member, at its descriptor and address, "200", ETX and the body |
| `Server.ChatServer.HandleRequest` | src/server.c:55-146 | Every request takes exactly one step of the state machine, and sends exactly the deliveries that the step forwards |

## Left out

- User interface, logging, database viewers, option parsing, sockets, `poll` and threads: reads and writes are assumed complete.
- Internals of ndbm and libuuid, allocation failure and freeing: a table is a map, and store operations succeed.
- `read_and_read_message` and the texts of responses: they change no state, and each member list is overwritten while it is rendered. The two list builders, forwarding and the answer codes are modelled; `is_number` and `find_duplicate_user` would add easy members only.
- Message text and time stamp storage: only message id, author and channel are stored; the history takes texts of any length and time stamps of 32 characters as given.
- Access times of cache entries: a clock value that no decision reads.
- Byte-level effects of overruns: missing fields and copies past a buffer are faults. A list name over 20 characters is looked up cut at 21 bytes and matches no stored key. Response buffers are taken to be large enough.
- Record copies of accounts are whole-record copies, although the source copies the size of another record.
- Replies.BuildMessageList: requires an account for every author it looks up, because the source dereferences it unchecked; `Runs.HistoryIsReadable` shows that gentle runs provide it.
- Server.ChatServer.HandleRequest: does not model read-message requests, whose faults depend on message texts that are not stored here; the responses to the sender are left out.
- Connection.ServingIsRunning: read-message requests are taken off the stream but have no effect and no outcome here.
- Interleaving inside one request: requests are handled one after the other by a single thread.

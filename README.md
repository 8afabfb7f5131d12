# chzzkpp in Dafny

A model of the C++ client library chzzkpp for the CHZZK streaming service. It covers the library's two halves:

- **The metadata API.**
  - `ApiPaths` builds the request paths. `UrlEncoding` percent-encodes search keywords, and `Decimal` writes numbers with `std::to_string`.
  - `ApiCore` is the `ChzzkCore` class. It holds the cookie keys and the timeout, and it records each HTTP request it makes.
  - `ApiParse` is the `parse<T>` specialisations and the `json_safe_get` helpers. `ApiTypes` holds the records they fill in.
  - `ApiClient` is the `ChzzkClient` class. It checks the response envelope and builds the search and recommendation results.
  - `JsonModel` is the part of the nlohmann::json library these rely on.
- **The chat client.**
  - `ChatProtocol` holds the command codes, message types and event categories, the session options, the frames the client sends, and the choice of chat server.
  - `ChatPayload` is `parseChat`, the normalisation of one chat entry.
  - `ChatDispatch` is `onMessage` as pure functions. It also covers the keep-alive and polling tick arithmetic, and the reassembly of websocket fragments.
  - `ChatSession` is the `ChzzkChat` class itself. It holds the options, flags, handler table, counters, the frames sent and the handler calls made, all updated in place by its methods.

The model is split by flavour:

- Pure code is written as functions: path building, parsing, payload normalisation, frame building and dispatch.
- Code that changes state is written as classes with `modifies` frames: `Core`, `ResponseBuffer`, `Client` and `Chat`.
- Each loop of the source is a method with invariants, proved against the function that specifies it:
  - `EncodeUrl`
  - `CollectStrings`
  - `CollectEntries`
  - `ServerId`
  - `AddHandler`
  - `RemoveAllHandlers`
  - `DeliverEntries`
  - `CollectMessages`
  - the emoji loop of `SendChat`

Text is `string`, and a Dafny `char` stands for one C++ `char`, a single byte of the UTF-8 text. `UrlEncoding` takes its input as such bytes (`Byte`, a `char` below 256), and `ServerId` reads each `char` as a signed byte through its low eight bits. A library exception is a `Failure`/`Fail` value carrying the reason. The socket, HTTP transfers and clocks are not modelled:

- a transfer's outcome, the handshake's outcome, the server's answers (`Backend`) and the current time are parameters;
- every frame sent is appended to `sent`, and every handler invocation to `calls`.

## Model

| member | source | states |
|---|---|---|
| Decimal.NatToString | src/ChzzkUtils.cpp:71 | the decimal text of a number is non-empty and all digits |
| Decimal.IntToStringRoundTrip | src/ChzzkUtils.cpp:71 | `to_string` of any int is digits after an optional minus sign (present exactly for negatives), and reading it back gives the int |
| Decimal.IntToStringInjective | src/ChzzkUtils.cpp:71 | different ints never share a decimal text |
| UrlEncoding.HexDigit | src/ChzzkUtils.cpp:48 | a nibble is written as an upper-case hexadecimal digit |
| UrlEncoding.EncodeUrl | src/ChzzkUtils.cpp:35-52 | the loop returns the empty string for empty input and otherwise the byte-by-byte encoding of its input |
| UrlEncoding.EncodedLength | src/ChzzkUtils.cpp:41-49 | the output is the input length plus two characters per byte outside the unreserved set |
| UrlEncoding.EncodedAlphabet | src/ChzzkUtils.cpp:43-48 | the output contains only unreserved characters, `%` and upper-case hexadecimal digits |
| UrlEncoding.EncodedUnreserved | src/ChzzkUtils.cpp:43-46 | a string of unreserved characters is left unchanged |
| UrlEncoding.DecodeEncoded | src/ChzzkUtils.cpp:35-52 | percent-decoding the output gives the input back (section 2.1 of RFC 3986) |
| UrlEncoding.EncodedInjective | src/ChzzkUtils.cpp:35-52 | different byte strings never share an encoding |
| ApiPaths.ChannelPathsInjective | src/ChzzkUtils.cpp:54-67 | the live-status, live-detail, channel and (default chat type) access-token paths each determine their argument |
| ApiPaths.VideoPathNumber | src/ChzzkUtils.cpp:69-72 | the video path is the prefix followed by the decimal video number, which reads back |
| ApiPaths.SearchKeywordSegment | src/ChzzkUtils.cpp:105-125 | `keyword=` directly follows the prefix, and a keyword without `&` is exactly the text up to the next `&` |
| ApiPaths.SearchPathsAsWritten | src/ChzzkUtils.cpp:93-103 | the three search paths place the keyword right after the prefix with no `?`; the channel search ends in `&withFirstChannelContent` followed by 0 or 1 with no `=` |
| ApiCore.CookieHeaderKeys | src/ChzzkCore.cpp:73 | both keys can be read back from the cookie header when the first holds no `;` |
| ApiCore.ResponseBuffer.constructor | src/ChzzkCore.cpp:61 | the response string starts empty |
| ApiCore.ResponseBuffer.Write | src/ChzzkCore.cpp:17-31 | the write callback appends `size * nmemb` bytes (in `size_t`) and reports that count, or reports 0 and leaves the string when allocation fails |
| ApiCore.Core.Headers | src/ChzzkCore.cpp:69-78 | a request carries the cookie header exactly when keys are set |
| ApiCore.Core.constructor | src/ChzzkCore.cpp:33-44 | a new core has no keys, the given timeout and no requests |
| ApiCore.Core.SetAuth | src/ChzzkCore.cpp:92-98 | keys are stored and marked present, so the cookie header carries them |
| ApiCore.Core.ClearAuth | src/ChzzkCore.cpp:100-105 | keys are emptied and marked absent, so requests carry no header |
| ApiCore.Core.SetTimeout | src/ChzzkCore.cpp:107-110 | the timeout is replaced |
| ApiCore.Core.GetTimeout | src/ChzzkCore.cpp:112-115 | answers the current timeout |
| ApiCore.Core.HasAuth | src/ChzzkCore.cpp:202-205 | answers whether keys are set |
| ApiCore.Core.Request | src/ChzzkCore.cpp:52-88 | without a transfer handle it fails and makes no request; otherwise it makes exactly one request with the current timeout and headers, and answers the body or, for a failed transfer, the error text |
| ApiCore.Core.GetChannel | src/ChzzkCore.cpp:117-120 | one request to the channel path |
| ApiCore.Core.GetLiveStatus | src/ChzzkCore.cpp:122-125 | one request to the live-status path |
| ApiCore.Core.GetLiveDetail | src/ChzzkCore.cpp:127-130 | one request to the live-detail path |
| ApiCore.Core.GetVideo | src/ChzzkCore.cpp:132-135 | one request to the video path |
| ApiCore.Core.GetRecommendationChannels | src/ChzzkCore.cpp:147-150 | one request to the partner list when asked for partners, to the channel list otherwise |
| ApiCore.Core.GetRecommendationLives | src/ChzzkCore.cpp:152-155 | one request to the recommended-lives path |
| ApiCore.Core.GetUserData | src/ChzzkCore.cpp:177-180 | one request to the user-status path |
| ApiCore.Core.GetAccessToken | src/ChzzkCore.cpp:182-185 | one request to the access-token path with chat type STREAMING |
| ApiCore.Core.SearchChannel | src/ChzzkCore.cpp:187-190 | one request to the channel search path carrying the percent-encoded keyword |
| ApiCore.Core.SearchLive | src/ChzzkCore.cpp:192-195 | one request to the live search path carrying the percent-encoded keyword |
| ApiCore.Core.SearchVideo | src/ChzzkCore.cpp:197-200 | one request to the video search path carrying the percent-encoded keyword |
| ApiCore.SearchKeywordRecoverable | src/ChzzkCore.cpp:192-195 | the keyword segment of a search request decodes back to the caller's keyword |
| JsonModel.At | include/chzzkpp/ChzzkUtils.h:20 | the const `operator[]` succeeds exactly on objects and reads the member, or null when it is absent |
| JsonModel.Slot | src/ChzzkChat.cpp:329-330 | the non-const `operator[]` succeeds exactly on objects and null, and reads the member or null |
| JsonModel.Values | src/ChzzkUtils.cpp:149-150 | one value per member, in member order |
| JsonModel.Elements | src/ChzzkUtils.cpp:149-150 | a range-for visits nothing for null, the elements of an array, and a scalar itself |
| JsonModel.Int32 | include/chzzkpp/ChzzkTypes.h:122 | a conversion to `int` lands in the 32-bit range and agrees with the number modulo 2^32 |
| JsonModel.UInt64 | src/ChzzkChat.cpp:286-288 | a conversion to `unsigned long long` lands in [0, 2^64) and agrees modulo 2^64 |
| JsonModel.ToText | include/chzzkpp/ChzzkUtils.h:20 | only a string converts to `std::string`, to its own text |
| JsonModel.ToInt | include/chzzkpp/ChzzkUtils.h:20 | numbers and booleans convert to `int` (a number wraps, a boolean gives 0 or 1); anything else throws |
| JsonModel.ToUInt64 | src/ChzzkChat.cpp:287-288 | exactly the numbers convert to `unsigned long long`, wrapped modulo 2^64; a boolean or anything else throws (MSVC's `unsigned long long` is the document's own unsigned type) |
| JsonModel.ToBool | include/chzzkpp/ChzzkUtils.h:20 | only a boolean converts to `bool` |
| JsonModel.LookupPut | src/ChzzkChat.cpp:552 | after storing under a key, that key reads the new value and every other key reads as before |
| JsonModel.LookupRemove | src/ChzzkChat.cpp:272-273 | after removing a key it is absent and every other key reads as before |
| JsonModel.GetSet | src/ChzzkChat.cpp:269-270 | `j[key] = v` makes the key present with `v` and changes no other key |
| JsonModel.GetErase | src/ChzzkChat.cpp:272-273 | `erase(key)` removes that key and no other |
| JsonModel.GetMerge | src/ChzzkChat.cpp:133 | merging members: each merged key reads the merged value, every other key as before |
| JsonModel.GetUpdate | src/ChzzkChat.cpp:133 | `a.update(b)`: a key of `b` reads as in `b`, every other key as in `a` |
| JsonModel.LookupFirst | src/ChzzkChat.cpp:121-126 | the first member under a key is the one found |
| JsonModel.GetMember | src/ChzzkChat.cpp:121-132 | an object literal holds each member under its key |
| JsonModel.GetAbsent | src/ChzzkChat.cpp:133 | a key no member has reads as absent and null |
| JsonModel.LookupMissing | src/ChzzkChat.cpp:133 | a key no member has is not found |
| ApiParse.SafeText | include/chzzkpp/ChzzkUtils.h:17-22 | a present non-null member must be a string and is taken; otherwise the field is empty |
| ApiParse.SafeInt | include/chzzkpp/ChzzkUtils.h:17-22 | a present non-null member must convert to `int` and is taken; otherwise 0 |
| ApiParse.SafeFlag | include/chzzkpp/ChzzkUtils.h:17-22 | a present non-null member must be a boolean and is taken; otherwise false |
| ApiParse.StringOr | include/chzzkpp/ChzzkUtils.h:24-39 | a string gives its text, anything else the empty string; it never throws |
| ApiParse.Strings | src/ChzzkUtils.cpp:147-151 | one string per element, in order |
| ApiParse.CollectStrings | src/ChzzkUtils.cpp:147-151 | the list loop yields one string per element when the key exists, and nothing otherwise |
| ApiParse.DumpOf | src/ChzzkUtils.cpp:485-489 | the dump of the member when its key exists, else the empty string |
| ApiParse.UserDataA | src/ChzzkUtils.cpp:142-145 | profile flag, id hash, nickname and image url read exactly when each converts |
| ApiParse.UserDataB | src/ChzzkUtils.cpp:147-156 | penalties, notification flag and date, verified and logged-in read; the first stage's fields are kept |
| ApiParse.ParseUserData | src/ChzzkUtils.cpp:137-159 | succeeds exactly when every field converts, and then each field holds its member or its default |
| ApiParse.ParseTemporaryRestrict | src/ChzzkUtils.cpp:161-172 | succeeds exactly when the four fields convert, each holding its member or default |
| ApiParse.ParseAccessToken | src/ChzzkUtils.cpp:174-186 | the token fields and, when the key exists, the nested restriction record (else the default) |
| ApiParse.ParseFollowingInfo | src/ChzzkUtils.cpp:188-203 | an empty document gives the unavailable record; otherwise an available one with its three fields |
| ApiParse.ParsePersonalData | src/ChzzkUtils.cpp:205-219 | an empty document gives the unavailable record; otherwise an available one with the nested following record (when present) and the block flag |
| ApiParse.ParsePaymentAvailability | src/ChzzkUtils.cpp:221-229 | the two availability flags |
| ApiParse.ParseChannelInfo | src/ChzzkUtils.cpp:231-245 | succeeds exactly when the six fields and the nested personal data convert, each holding its member or default |
| ApiParse.ChannelFields | src/ChzzkUtils.cpp:260-264 | type, live flag, subscription flag, the payment record under the misspelt key `sucbscriptionPaymentAvailability`, and the ad flag; the adult status stays empty |
| ApiParse.ParseChannel | src/ChzzkUtils.cpp:247-267 | succeeds exactly when the channel-info fields and the channel fields convert, and holds both |
| ApiParse.ParseLivePollingStatus | src/ChzzkUtils.cpp:269-281 | the five polling fields, exactly when they convert |
| ApiParse.LiveStatusA | src/ChzzkUtils.cpp:288-293 | title, status, counts, paid-promotion and adult flags |
| ApiParse.LiveStatusB | src/ChzzkUtils.cpp:294-305 | region flag, clip flag, chat channel id, tags and categories; earlier fields kept |
| ApiParse.LiveStatusC | src/ChzzkUtils.cpp:306-310 | category value, the nested polling record under `livePollingStatusJson`, fault, adult and blind status; earlier fields kept |
| ApiParse.LiveStatusD | src/ChzzkUtils.cpp:311-315 | chat activity, group, condition, follower minutes and ranking flag; earlier fields kept |
| ApiParse.ParseLiveStatus | src/ChzzkUtils.cpp:283-318 | succeeds exactly when all twenty-two fields convert, each holding its member or default |
| ApiParse.LiveBaseA | src/ChzzkUtils.cpp:325-331 | live id, title, image urls, counts and open date; channel record at its default |
| ApiParse.LiveBaseB | src/ChzzkUtils.cpp:332-344 | adult flag, tags, categories, channel id and blind type; earlier fields kept |
| ApiParse.LiveBase | src/ChzzkUtils.cpp:325-344 | the live fields shared by every live record, exactly when they convert |
| ApiParse.ParseLiveInfo | src/ChzzkUtils.cpp:320-348 | the live fields plus the nested channel record when the key exists |
| ApiParse.ParseLive | src/ChzzkUtils.cpp:350-380 | the live fields, chat channel id and playback text; the channel record stays at its default |
| ApiParse.LiveDetailA | src/ChzzkUtils.cpp:402-413 | chat channel id, playback, nested channel, status, close date and clip flag; the live fields are kept |
| ApiParse.LiveDetailB | src/ChzzkUtils.cpp:414-426 | chat activity, group, condition, follower minutes, adult status and ranking flag; earlier fields kept |
| ApiParse.LiveDetailFields | src/ChzzkUtils.cpp:402-429 | the detail fields beyond the live fields, p2p list and ad parameter dump |
| ApiParse.ParseLiveDetail | src/ChzzkUtils.cpp:382-432 | succeeds exactly when every read field converts; each holds its member or default, p2p list and ad dump as present, paid promotion and polling never read |
| ApiParse.VideoInfoA | src/ChzzkUtils.cpp:438-444 | number, id, title, type, publish date, thumbnail and duration |
| ApiParse.VideoInfoB | src/ChzzkUtils.cpp:445-452 | views, channel id, timestamp, adult, categories and blind type; earlier fields kept |
| ApiParse.ParseVideoInfo | src/ChzzkUtils.cpp:434-456 | all fifteen fields, exactly when they convert; the channel record stays at its default |
| ApiParse.VideoFields | src/ChzzkUtils.cpp:477-491 | nested channel, exposure, clip flag, key, open date, status and adult status; the entry's fields and the dumps kept |
| ApiParse.ParseVideo | src/ChzzkUtils.cpp:458-497 | the entry fields, the nested channel and the detail fields; neighbouring videos and ad parameter as dumps; trailer and paid promotion never read |
| ApiParse.ParseRaw | include/chzzkpp/ChzzkUtils.h:44-49 | a malformed text fails; otherwise the record's parse of the document |
| ApiParse.ParseEmptyDefaults | include/chzzkpp/ChzzkUtils.h:17-22 | a null or member-less document parses to the all-default channel, polling, restriction and user records |
| ApiParse.NullLikeAbsent | include/chzzkpp/ChzzkUtils.h:20 | a null member reads like a missing one: empty, 0 or false |
| ApiParse.PresentFieldReadsBack | include/chzzkpp/ChzzkUtils.h:20 | a present member of the right type reads back as stored (an int after the 32-bit cast) |
| ApiClient.GetContent | src/ChzzkClient.cpp:15-42 | a body that is not JSON gives null; code 200 gives `content`; any other code throws the invalid-status error carrying the code and the message when the message is a string, and a JSON error otherwise; a code that is not a number gives a JSON error |
| ApiClient.Fetch | src/ChzzkClient.cpp:44-62 | a record endpoint is the envelope check followed by the record's parse |
| ApiClient.MalformedBodyGivesDefaults | src/ChzzkClient.cpp:17-23 | a body that is not JSON yields the all-default record rather than an error |
| ApiClient.Collect | src/ChzzkClient.cpp:73-74 | parsing the elements in order succeeds exactly when each does, with one entry per element |
| ApiClient.ChannelEntry | src/ChzzkClient.cpp:113-114 | a channel search entry is the channel record under `channel` |
| ApiClient.LiveEntry | src/ChzzkClient.cpp:128-134 | a live search entry is the live under `live` with its channel record replaced by the one under `channel` |
| ApiClient.VideoEntry | src/ChzzkClient.cpp:148-154 | a video search entry is the video under `video` with its channel record replaced by the one under `channel` |
| ApiClient.ListOfEntries | src/ChzzkClient.cpp:111-116 | a successful list has one entry per element of `content["data"]`, in order |
| ApiClient.CollectEntries | src/ChzzkClient.cpp:148-154 | the result loop computes exactly `Collect`, stopping at the first entry that throws |
| ApiClient.PrefixFailure | src/ChzzkClient.cpp:148-154 | once an entry fails, the whole list fails with that error |
| ApiClient.Client.constructor | src/ChzzkClient.cpp:10-13 | the client keeps the given core |
| ApiClient.Client.Content | src/ChzzkClient.cpp:15-42 | a core failure is passed on, otherwise the envelope check |
| ApiClient.Client.GetChannel | src/ChzzkClient.cpp:44-47 | one channel request, and the channel parsed from its content |
| ApiClient.Client.GetLiveStatus | src/ChzzkClient.cpp:49-52 | one live-status request, and the status parsed from its content |
| ApiClient.Client.GetLiveDetail | src/ChzzkClient.cpp:54-57 | one live-detail request, and the detail parsed from its content |
| ApiClient.Client.GetVideo | src/ChzzkClient.cpp:59-62 | one video request, and the video parsed from its content |
| ApiClient.Client.GetUserData | src/ChzzkClient.cpp:94-97 | one user request, and the user record parsed from its content |
| ApiClient.Client.GetAccessToken | src/ChzzkClient.cpp:99-102 | one token request, and the token parsed from its content |
| ApiClient.Client.RecommendationLives | src/ChzzkClient.cpp:64-92 | keyword, size and offset 0 echoed, and one live per data element, exactly when all parse |
| ApiClient.Client.SearchChannel | src/ChzzkClient.cpp:104-117 | one search request; keyword, offset and size echoed, and one channel per data element |
| ApiClient.Client.SearchLive | src/ChzzkClient.cpp:119-137 | one search request; keyword, offset and size echoed, and one live per data element |
| ApiClient.Client.SearchVideo | src/ChzzkClient.cpp:139-157 | one search request; keyword, offset and size echoed, and one video per data element |
| ChatProtocol.CommandOf | include/chzzkpp/ChzzkChat.h:22-39 | the inverse of the command codes: a code names at most one command, and every command's code names it |
| ChatProtocol.TypeOf | include/chzzkpp/ChzzkChat.h:41-52 | the inverse of the message-type codes |
| ChatProtocol.EventIndex | include/chzzkpp/ChzzkChat.h:55-66 | each event category has an index below nine |
| ChatProtocol.NineEvents | include/chzzkpp/ChzzkChat.h:55-66 | the nine categories CONNECT through BLIND, in enumerator order |
| ChatProtocol.AuthMode | src/ChzzkChat.cpp:123 | READ exactly when there is no user id hash, SEND exactly when there is one |
| ChatProtocol.EmojiObjectLast | src/ChzzkChat.cpp:549-552 | each emoji name maps to the url of its last pair |
| ChatProtocol.EmojiObjectOnlyGiven | src/ChzzkChat.cpp:549-552 | the emoji object holds no name that was not given |
| ChatProtocol.EmojiObjectShape | src/ChzzkChat.cpp:549-552 | no emojis leave the object null; any emoji makes it an object |
| ChatProtocol.UpdateDefaultsSets | src/ChzzkChat.cpp:446-450 | merging `_default` sets the chat channel id, service `game` and version 2 |
| ChatProtocol.UpdateDefaultsKeeps | src/ChzzkChat.cpp:133 | merging `_default` keeps every other key |
| ChatProtocol.ConnectCommandFields | src/ChzzkChat.cpp:128-132 | CONNECT carries command 100, transaction 1 and its body |
| ChatProtocol.ConnectFrameFields | src/ChzzkChat.cpp:121-135 | the CONNECT frame holds its command, transaction and body and the three default fields |
| ChatProtocol.ConnectBodyFields | src/ChzzkChat.cpp:121-126 | the body carries token, user id hash and device 2001, and asks for READ exactly without a user |
| ChatProtocol.RecentChatCommandFields | src/ChzzkChat.cpp:528-535 | REQUEST_RECENT_CHAT carries 5101, transaction 2, the session id and the count |
| ChatProtocol.RecentChatFrameFields | src/ChzzkChat.cpp:528-538 | the sent recent-chat frame holds those fields and the defaults |
| ChatProtocol.SendChatCommandFields | src/ChzzkChat.cpp:568-574 | SEND_CHAT carries 3101, retry false and its body |
| ChatProtocol.SendChatCommandSession | src/ChzzkChat.cpp:568-574 | SEND_CHAT carries the session id and transaction 3 |
| ChatProtocol.SendChatFrameFields | src/ChzzkChat.cpp:561-578 | the sent chat frame holds its command fields and the defaults |
| ChatProtocol.SendChatBodyFields | src/ChzzkChat.cpp:561-566 | the body carries the dumped extras, the text, the time and type TEXT |
| ChatProtocol.SignedChar | src/ChzzkChat.cpp:454-455 | a `char` adds as a signed byte in [-128, 128), congruent to its code modulo 256 |
| ChatProtocol.TruncRem | src/ChzzkChat.cpp:457 | C++ `%` by a positive divisor: the remainder takes the dividend's sign |
| ChatProtocol.ServerId | src/ChzzkChat.cpp:452-457 | the selector loop computes the character sum's truncated remainder by 9, plus 1 |
| ChatProtocol.AsciiSumNonNegative | src/ChzzkChat.cpp:454-455 | characters below 128 add to a non-negative sum |
| ChatProtocol.SelectorRange | src/ChzzkChat.cpp:452-457 | a non-negative sum (always so for ASCII ids) selects one of servers 1 to 9; a negative sum gives -7 to 1 |
| ChatProtocol.ChatSocketAddress | src/ChzzkChat.cpp:459 | the socket address is the prefix, the selector in decimal (which reads back) and the suffix |
| ChatPayload.ExpandParams | src/ChzzkChat.cpp:263-276 | the `params` handling succeeds exactly when the extras are null or an object whose params are null or hold both profile texts as strings |
| ChatPayload.ExpandParamsKeeps | src/ChzzkChat.cpp:263-276 | every member of the extras other than `params` is left unchanged |
| ChatPayload.ExpandParamsExpands | src/ChzzkChat.cpp:267-276 | with both texts non-empty, params hold the parsed profiles under the new keys, the texts are gone, and everything else stays |
| ChatPayload.ExpandParamsUntouched | src/ChzzkChat.cpp:263-267 | otherwise params are left unchanged |
| ChatPayload.ReadFields | src/ChzzkChat.cpp:278-292 | text, member count, time and status type come from the short key, else the long alias, else the default, and succeed exactly when the chosen values convert |
| ChatPayload.ParseChat | src/ChzzkChat.cpp:255-309 | succeeds exactly for an object whose extras expand and whose fields convert; a non-object throws at once |
| ChatPayload.AssembleFields | src/ChzzkChat.cpp:296-305 | the assembled document holds each of its keys, and `memberCount` exactly when the count is non-zero |
| ChatPayload.ParseChatCarries | src/ChzzkChat.cpp:257-263 | a parsed entry echoes `isRecent` and carries the profile and the expanded extras |
| ChatPayload.ParseChatCoalesces | src/ChzzkChat.cpp:278-288 | the message and the time come from the short key, else the long one, else empty and zero |
| ChatPayload.ParseChatHidden | src/ChzzkChat.cpp:290-294 | `hidden` is true exactly when the status type is HIDDEN |
| ChatPayload.ParseChatMemberCount | src/ChzzkChat.cpp:282-305 | `memberCount` appears exactly when the count is non-zero, holding the count |
| ChatDispatch.EnumValue | src/ChzzkChat.cpp:330 | only a number converts to the command or type enum, cast to `int` |
| ChatDispatch.DecodeFrame | src/ChzzkChat.cpp:311-330 | empty and unparsable messages are dropped; otherwise `bdy` and `cmd` are read, failing exactly when the document is not an object or null or `cmd` is not a number |
| ChatDispatch.Route | src/ChzzkChat.cpp:385-402 | TEXT, DONATION, SUBSCRIPTION and SYSTEM_MESSAGE each go to their own category (if and only if), and every other type goes nowhere |
| ChatDispatch.EntryType | src/ChzzkChat.cpp:378-381 | the type comes from `msgTypeCode`, else `messageTypeCode`, else NONE |
| ChatDispatch.EntryStep | src/ChzzkChat.cpp:376-403 | one entry's turn succeeds exactly when its type and normalisation do, and delivers exactly when its type has a category |
| ChatDispatch.Run | src/ChzzkChat.cpp:376-403 | a loop delivers at most one payload per turn |
| ChatDispatch.EntryTrace | src/ChzzkChat.cpp:372-403 | the entry loop delivers at most one payload per entry |
| ChatDispatch.NoticeTrace | src/ChzzkChat.cpp:364-370 | an empty notice delivers nothing; a failing one delivers nothing and reports the failure |
| ChatDispatch.EntryStepDelivers | src/ChzzkChat.cpp:383-402 | an entry's delivery is under a chat category and carries a document echoing `isRecent` |
| ChatDispatch.RunDeliveries | src/ChzzkChat.cpp:376-403 | every delivery of a loop is one of its turns' deliveries |
| ChatDispatch.EntryTraceEvents | src/ChzzkChat.cpp:376-403 | entries are only delivered under the four chat categories |
| ChatDispatch.RunAllDeliver | src/ChzzkChat.cpp:376-403 | a loop whose every turn delivers has one delivery per turn, in order |
| ChatDispatch.AllRoutedOnePerEntry | src/ChzzkChat.cpp:372-403 | routable entries give exactly one delivery each, in order |
| ChatDispatch.NoticeComesFirst | src/ChzzkChat.cpp:364-376 | a non-empty notice is delivered once, before any entry |
| ChatDispatch.NoNoticeNoNoticeEvent | src/ChzzkChat.cpp:364-370 | without a notice no NOTICE is delivered |
| ChatDispatch.SessionId | src/ChzzkChat.cpp:335 | the session id is the body's string `sid`, and fails otherwise |
| ChatDispatch.NoticeDelivery | src/ChzzkChat.cpp:407-409 | a NOTICE command delivers an empty text exactly for an empty body |
| ChatDispatch.ReactConnected | src/ChzzkChat.cpp:334-345 | CONNECTED takes the session id and reports RECONNECT with the channel id while reconnecting, CONNECT otherwise |
| ChatDispatch.ReactReplies | src/ChzzkChat.cpp:347-356 | only CONNECTED sets the session id, and exactly PING is answered, with one PONG |
| ChatDispatch.ReactChats | src/ChzzkChat.cpp:358-405 | CHAT, RECENT_CHAT and DONATION deliver their chat trace, `isRecent` only for RECENT_CHAT |
| ChatDispatch.ChatReactionDeliveries | src/ChzzkChat.cpp:358-405 | the chat-family reaction is the chat trace, with no reply or session id |
| ChatDispatch.ChatTraceDeliveries | src/ChzzkChat.cpp:358-405 | a chat trace delivers the notice and routed entries only |
| ChatDispatch.ReactNotice | src/ChzzkChat.cpp:407-409 | NOTICE succeeds exactly for an empty body |
| ChatDispatch.ReactBlind | src/ChzzkChat.cpp:411-413 | BLIND delivers a string body as it is and any other body as its dump |
| ChatDispatch.ReactIgnores | src/ChzzkChat.cpp:332-414 | every other command does nothing |
| ChatDispatch.RunNext | src/ChzzkChat.cpp:376-403 | one more turn appends its delivery, or stops with its failure |
| ChatDispatch.RunStops | src/ChzzkChat.cpp:376-403 | once a turn throws, later entries do not count |
| ChatDispatch.PingSchedule | src/ChzzkChat.cpp:217-239 | after n ticks of 10 ms the counter is `10 * (n % 2000)` and `n / 2000` pings have been sent: one every 20 seconds |
| ChatDispatch.PollStep | src/ChzzkChat.cpp:179-197 | a tick polls exactly when the counter has reached `pollTime`, then restarts it, and advances by 10 |
| ChatDispatch.PollPeriod | src/ChzzkChat.cpp:177-197 | for any positive `pollTime`, after a poll the counter climbs by 10 a tick and the next poll comes exactly `pollTime / 10` ticks later, rounded up |
| ChatDispatch.CollectMessages | src/ChzzkChat.cpp:35-71 | the receive loop computes exactly `Reassemble` of the receive results |
| ChatDispatch.ReassembleStops | src/ChzzkChat.cpp:62-66 | a receive error ends the loop, and nothing after it counts |
| ChatDispatch.ReassemblyKeepsText | src/ChzzkChat.cpp:50-59 | without errors, the messages followed by the pending text are the fragments' texts joined: nothing is lost or reordered |
| ChatDispatch.ReassemblyCount | src/ChzzkChat.cpp:55-59 | one message per final fragment |
| ChatSession.CallsOf | src/ChzzkChat.cpp:420-424 | one call per delivery |
| ChatSession.ChatTraceCalls | src/ChzzkChat.cpp:364-403 | the calls of a chat-family message are the notice's and then, unless it failed, the entries' |
| ChatSession.IdsBelow | src/ChzzkChat.cpp:487-489 | taken ids below n number at least n, so the id search ends |
| ChatSession.Chat.constructor | src/ChzzkChat.cpp:15-24 | a new session holds the options and timeout, is disconnected and has no session id, user or handlers |
| ChatSession.Chat.AddHandler | src/ChzzkChat.cpp:481-493 | the handler gets the smallest id not in use for its category; nothing else changes |
| ChatSession.Chat.RemoveHandler | src/ChzzkChat.cpp:495-502 | the id is gone from its category, whether or not it was there |
| ChatSession.Chat.RemoveHandlers | src/ChzzkChat.cpp:504-511 | the category is emptied |
| ChatSession.Chat.RemoveAllHandlers | src/ChzzkChat.cpp:513-521 | every category is emptied, and none is added |
| ChatSession.Chat.CallEvent | src/ChzzkChat.cpp:420-424 | the payload goes to the category's current handlers |
| ChatSession.Chat.StartPolling | src/ChzzkChat.cpp:200-206 | starts polling, counter at `pollTime`, unless `pollTime` is 0 or polling already runs |
| ChatSession.Chat.StopPolling | src/ChzzkChat.cpp:208-215 | polling stops |
| ChatSession.Chat.StartPing | src/ChzzkChat.cpp:241-247 | the keep-alive restarts from zero |
| ChatSession.Chat.StopPing | src/ChzzkChat.cpp:249-253 | the keep-alive stops |
| ChatSession.Chat.OnOpen | src/ChzzkChat.cpp:117-143 | the session is connected, sends CONNECT, and starts polling unless reconnecting |
| ChatSession.Chat.OnClose | src/ChzzkChat.cpp:145-162 | outside a reconnection it reports DISCONNECT, stops polling and forgets the chat channel id; it always stops the keep-alive and forgets session id, token and user |
| ChatSession.Chat.Close | src/ChzzkChat.cpp:464-469 | fails on a disconnected session, otherwise closes as `OnClose` |
| ChatSession.Chat.Connect | src/ChzzkChat.cpp:430-462 | the state `Prepared` describes: the looked-up chat channel id is stored, the user id hash and then the token are stored as each request returns, and `_default` and the server address are set once a token is there; a lookup, user or token request that throws, or a missing chat channel id, ends it with that failure before any handshake; otherwise it opens and sends CONNECT with the new token, user and `_default`, or fails when connected or when the handshake fails, and starts polling on a fresh open |
| ChatSession.Chat.Prepare | src/ChzzkChat.cpp:430-459 | the part of connect before the handshake: its outcome is `PrepareOutcome` (the first request that throws, no chat channel id, or ready) and its state is `Prepared`, including the user id hash kept when only the token request throws |
| ChatSession.Chat.OpenSocket | src/ChzzkChat.cpp:74-90 | fails when connected or when the handshake fails, otherwise opens |
| ChatSession.Chat.Reconnect | src/ChzzkChat.cpp:164-173 | a disconnected session only marks itself reconnecting and nothing else changes; a connected one closes without DISCONNECT and without stopping polling, then connects to the same chat channel fetching the user and a fresh token (`Reconnected`): a request that throws leaves it closed with that failure; otherwise it sends CONNECT when the handshake succeeds; the polling counter is untouched |
| ChatSession.Chat.OnMessage | src/ChzzkChat.cpp:311-418 | the calls, replies, session id and reconnect flag are exactly those of `React` on the decoded frame; the keep-alive restarts unless PONG or a failure |
| ChatSession.Chat.Handle | src/ChzzkChat.cpp:332-414 | the command switch has exactly the effects `React` gives |
| ChatSession.Chat.HandleConnected | src/ChzzkChat.cpp:334-345 | the CONNECTED branch has exactly `React`'s effects |
| ChatSession.Chat.HandlePing | src/ChzzkChat.cpp:347-356 | the PING branch has exactly `React`'s effects |
| ChatSession.Chat.HandleChats | src/ChzzkChat.cpp:358-405 | the chat-family branch has exactly `React`'s effects |
| ChatSession.Chat.HandleNotice | src/ChzzkChat.cpp:407-409 | the NOTICE branch has exactly `React`'s effects |
| ChatSession.Chat.HandleBlind | src/ChzzkChat.cpp:411-413 | the BLIND branch has exactly `React`'s effects |
| ChatSession.Chat.DeliverChats | src/ChzzkChat.cpp:362-404 | the notice's calls, then, unless it failed, the entry loop's calls |
| ChatSession.Chat.DeliverNotice | src/ChzzkChat.cpp:364-370 | the notice's calls and failure are those of `NoticeTrace` |
| ChatSession.Chat.DeliverEntries | src/ChzzkChat.cpp:376-403 | the loop's calls and failure are those of `EntryTrace` |
| ChatSession.Chat.RequestRecentChat | src/ChzzkChat.cpp:523-539 | fails when disconnected; otherwise sends REQUEST_RECENT_CHAT with the count, session id and channel |
| ChatSession.Chat.SendChat | src/ChzzkChat.cpp:541-579 | fails when disconnected or not logged in; otherwise sends SEND_CHAT with the text, session id, channel and emoji extras |
| ChatSession.Chat.PingTick | src/ChzzkChat.cpp:221-237 | a tick while connected and pinging advances the counter and sends PING when it comes due |
| ChatSession.Chat.PollTick | src/ChzzkChat.cpp:179-197 | outside a connected, polling session nothing changes; a tick that is not due, or finds an empty or the same chat channel id, only advances the counter; a due tick whose live-status request throws fails and changes nothing; a different non-empty id replaces the current one and the session reconnects to it (`Reconnected`), the counter advancing only when that succeeds |
| ChatSession.Chat.SetConnectionTimeout | src/ChzzkChat.cpp:471-474 | the timeout is replaced |
| ChatSession.Chat.GetConnectionTimeout | src/ChzzkChat.cpp:476-479 | answers the timeout |
| ChatSession.Chat.IsConnected | src/ChzzkChat.cpp:593-596 | answers the connection flag |
| ChatSession.Chat.CurrentOptions | src/ChzzkChat.cpp:583-591 | answers the current options |

## Left out

- HTTP and websocket transfers through libcurl: the body, the transfer error text, the handshake outcome and the fragments received are parameters. `_send`, the close frame and the `curl_easy_setopt` calls are not modelled.
- Threads, the mutex and sleeps. The receive, polling and keep-alive loops are modelled one 10 ms tick at a time (`CollectMessages`, `PollTick`, `PingTick`), and handler reentrancy is not modelled.
- A handler invocation is recorded as a `Call` holding the category's handlers at that moment; the handlers' own effects are not modelled.
- `convertUTF8` (src/ChzzkUtils.cpp:10-33) calls Windows code-page functions and is not modelled.
- JSON text is left uninterpreted: `parse` and `dump` are parameters (`TextCodec`), and floating-point numbers are not modelled.
- ChatPayload.SubDocument: a profile, extras or params text that fails to parse reads as null, whereas the library throws.
- ChatPayload.ParseChat: when the `profile` or `extras` text is non-empty but not valid JSON, `nlohmann::json::parse` throws (src/ChzzkChat.cpp:260-261). The model reads null there, so its "succeeds exactly when" condition does not capture that failure.
- ChatPayload.ExpandParams: when both profile texts under `params` are non-empty and one of them is not valid JSON, `nlohmann::json::parse` throws (src/ChzzkChat.cpp:269-270). The model stores null under the new key and succeeds, so its "succeeds exactly when" condition does not capture that failure.
- JsonModel.At: the const `operator[]` on a missing key is undefined behaviour in the library; the model reads null.
- ChatDispatch.NoticeDelivery: for a non-empty NOTICE body the source passes a JSON document where a string is expected. The model reports the conversion failure the library raises.
- ChatSession.Chat.SendChat: the wall-clock time is the parameter `now`.
- ChatSession.Backend stands in for the `ChzzkClient` calls made by `connect` and by the polling loop, which read the chat channel id, the user id hash and the access token. Each answer is either a value or the `ClientError` the call throws, fixed for the whole run: the model does not capture answers that change between requests.
- The source calls path builders that are declared but never defined, so the `ChzzkCore` methods that use them are not modelled: `getTopViewerLivesPath`, `getChannelMissionsPath` and the three donation-setting paths, declared in include/chzzkpp/ChzzkUtils.h:59-77. The same applies to `getRecommendationLivesPath`, which uses a prefix constant that include/chzzkpp/Path.h does not define.
- ApiClient.Client.RecommendationLives: `ChzzkClient::getRecommendationLives` passes arguments that `ChzzkCore::getRecommendationLives` (src/ChzzkCore.cpp:152) does not take. The model therefore leaves out the request and takes the response body as a parameter.
- `invalid_status_exception::what` (include/chzzkpp/ChzzkTypes.h:21-25) is not modelled. Only the code and message the exception carries are.
- ApiParse.ParseLiveDetail: the fields read and the success condition match the source, but the field order does not. The model reads `liveId` before the title (not after the open date). It also reads `chatChannelId` and `livePlaybackJson` in ApiParse.LiveDetailA, after ApiParse.LiveBase has read `categoryType`, `liveCategory`, `liveCategoryValue`, `channelId` and `blindType`. The source reads `chatChannelId` before `categoryType` (src/ChzzkUtils.cpp:402-403) and `livePlaybackJson` before `blindType` (src/ChzzkUtils.cpp:407-408). Both read the channel record after those fields. When several fields have the wrong type, the reported error may name a different conversion.
- ApiParse.ParseAccessToken: without a `temporaryRestrict` key (src/ChzzkUtils.cpp:183) the restriction record is never assigned; the model gives `DefaultTemporaryRestrict`. The `bool` and `int` members of a record the source never assigns are indeterminate (strings and lists are empty). The model gives the `Default*` record, or false, in their place, so it does not capture that those values are unspecified.
- ApiParse.ParseFollowingInfo: an empty document (src/ChzzkUtils.cpp:193) assigns only `available`; the model gives `following` and `notification` false.
- ApiParse.ParsePersonalData: an empty document (src/ChzzkUtils.cpp:210) leaves the following record and `privateUserBlock` unassigned, and a missing `following` key (src/ChzzkUtils.cpp:214) leaves the following record unassigned; the model gives the default record and false.
- ApiParse.ParseChannelInfo: without a `personalData` key (src/ChzzkUtils.cpp:242) the personal data is never assigned; the model gives `DefaultPersonalData`.
- ApiParse.ChannelFields: without the misspelt payment key (src/ChzzkUtils.cpp:263) the payment record is never assigned; the model gives the default record.
- ApiParse.ParseChannel: a missing `personalData` key (src/ChzzkUtils.cpp:258) or a missing payment key (src/ChzzkUtils.cpp:263) leaves that record unassigned; the model gives the default records.
- ApiParse.LiveStatusC: without a `livePollingStatusJson` key (src/ChzzkUtils.cpp:307) the polling record is never assigned; the model gives `DefaultLivePollingStatus`.
- ApiParse.ParseLiveStatus: it inherits the unassigned polling record of ApiParse.LiveStatusC.
- ApiParse.ParseLiveInfo: without a `channel` key (src/ChzzkUtils.cpp:345) the channel record is never assigned; the model gives `DefaultChannelInfo`.
- ApiParse.ParseLive: the source never assigns the channel record; the model gives `DefaultChannelInfo`.
- ApiParse.LiveDetailA: without a `channel` key (src/ChzzkUtils.cpp:409) the channel record is never assigned; the model gives `DefaultChannelInfo`.
- ApiParse.ParseLiveDetail: it inherits the unassigned channel record of ApiParse.LiveDetailA. It also never assigns `paidPromotion` or the polling record; the model gives false and the default record.
- ApiParse.ParseVideoInfo: the source never assigns the channel record; the model gives `DefaultChannelInfo`.
- ApiParse.VideoFields: without a `channel` key (src/ChzzkUtils.cpp:477) the channel record is never assigned; the model gives `DefaultChannelInfo`.
- ApiParse.ParseVideo: it inherits the unassigned channel record of ApiParse.VideoFields. It also never assigns `trailerURL` or `paidPromotion`: `trailerURL` stays an empty string, and `paidPromotion` is indeterminate, which the model gives as false.
- ApiParse.ParseEmptyDefaults: on an empty document the channel-info parse leaves the personal data unassigned (src/ChzzkUtils.cpp:242). The lemma's all-default channel info is the model's value, not the source's.
- ApiClient.MalformedBodyGivesDefaults: the channel-info half inherits the unassigned personal data of ApiParse.ParseEmptyDefaults.
- ApiParse.ParseChannel's `userAdultStatus` is never read and is modelled as empty.
- ChatProtocol.ServerId: the character sum is an unbounded integer, so the model does not capture the overflow of `int` for ids of more than about 16 million characters.
- ChatSession.Chat.AddHandler: ids are unbounded, so the model does not capture the wrap-around of `size_t`.
- ChatSession.Chat.RemoveHandler and ChatSession.Chat.RemoveHandlers: these create the category entry if it is missing, as `handlers[type]` does. Reading an untouched category (`CallEvent`) leaves the table as it was rather than inserting an empty entry.
- The `ChzzkChat` and `ChzzkCore` destructors are not modelled.
- ChatSession.Chat.CurrentOptions returns a copy; the mutable reference of the non-const overload is not modelled.
- ChatSession.Chat.SendChat takes the emojis as a list of pairs in the map's key order.
- ChatSession.Chat.PollTick: a failed reconnection or a live-status request that throws escapes the polling thread in the source. The model ends that tick with `Fail`.
- `example/main.cpp` is not part of this model.

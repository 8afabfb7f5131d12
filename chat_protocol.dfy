/** The chat wire protocol of include/chzzkpp/ChzzkChat.h and
    src/ChzzkChat.cpp: the command and message-type codes, the event
    categories handlers register for, the session options, the frames the
    client sends and the choice of chat server. */
module ChatProtocol {
  import opened Wrappers
  import opened JsonModel
  import opened Decimal
  import opened ApiPaths

  /** `ChatCommand`, the `cmd` of every frame. */
  datatype ChatCommand =
    | Ping | Pong | Connect | Connected | RequestRecentChat | RecentChat | Event
    | Chat | Donation | Kick | Block | Blind | Notice | Penalty | SendChat

  function Code(c: ChatCommand): int
  {
    match c
    case Ping => 0
    case Pong => 10000
    case Connect => 100
    case Connected => 10100
    case RequestRecentChat => 5101
    case RecentChat => 15101
    case Event => 93006
    case Chat => 93101
    case Donation => 93102
    case Kick => 94005
    case Block => 94006
    case Blind => 94008
    case Notice => 94010
    case Penalty => 94015
    case SendChat => 3101
  }

  /** The command a code stands for, if any: the inverse of `Code`. */
  function CommandOf(code: int): (r: Option<ChatCommand>)
    ensures r.Some? ==> Code(r.value) == code
    ensures forall c :: Code(c) == code ==> r == Some(c)
  {
    if code == 0 then Some(Ping)
    else if code == 10000 then Some(Pong)
    else if code == 100 then Some(Connect)
    else if code == 10100 then Some(Connected)
    else if code == 5101 then Some(RequestRecentChat)
    else if code == 15101 then Some(RecentChat)
    else if code == 93006 then Some(Event)
    else if code == 93101 then Some(Chat)
    else if code == 93102 then Some(Donation)
    else if code == 94005 then Some(Kick)
    else if code == 94006 then Some(Block)
    else if code == 94008 then Some(Blind)
    else if code == 94010 then Some(Notice)
    else if code == 94015 then Some(Penalty)
    else if code == 3101 then Some(SendChat)
    else None
  }

  /** `ChatType`, the `msgTypeCode` of a chat entry. */
  datatype ChatType =
    | NoneType | TextType | ImageType | StickerType | VideoType | RichType
    | DonationType | SubscriptionType | SystemMessageType

  function TypeCode(t: ChatType): int
  {
    match t
    case NoneType => 0
    case TextType => 1
    case ImageType => 2
    case StickerType => 3
    case VideoType => 4
    case RichType => 5
    case DonationType => 10
    case SubscriptionType => 11
    case SystemMessageType => 30
  }

  /** The message type a code stands for, if any: the inverse of `TypeCode`. */
  function TypeOf(code: int): (r: Option<ChatType>)
    ensures r.Some? ==> TypeCode(r.value) == code
    ensures forall t :: TypeCode(t) == code ==> r == Some(t)
  {
    if code == 0 then Some(NoneType)
    else if code == 1 then Some(TextType)
    else if code == 2 then Some(ImageType)
    else if code == 3 then Some(StickerType)
    else if code == 4 then Some(VideoType)
    else if code == 5 then Some(RichType)
    else if code == 10 then Some(DonationType)
    else if code == 11 then Some(SubscriptionType)
    else if code == 30 then Some(SystemMessageType)
    else None
  }

  /** `ChzzkChatEvent`: the categories handlers are registered under. */
  datatype ChatEvent =
    | ConnectEvent | ReconnectEvent | DisconnectEvent | NoticeEvent | ChatMessageEvent
    | DonationEvent | SubscriptionEvent | SystemMessageEvent | BlindEvent

  /** The enumerator's value, which orders the categories. */
  function EventIndex(e: ChatEvent): (r: nat)
    ensures r < 9
  {
    match e
    case ConnectEvent => 0
    case ReconnectEvent => 1
    case DisconnectEvent => 2
    case NoticeEvent => 3
    case ChatMessageEvent => 4
    case DonationEvent => 5
    case SubscriptionEvent => 6
    case SystemMessageEvent => 7
    case BlindEvent => 8
  }

  const AllEvents: seq<ChatEvent> := [
    ConnectEvent, ReconnectEvent, DisconnectEvent, NoticeEvent, ChatMessageEvent,
    DonationEvent, SubscriptionEvent, SystemMessageEvent, BlindEvent]

  /** There are exactly nine categories, CONNECT through BLIND, in that order. */
  lemma NineEvents(e: ChatEvent)
    ensures |AllEvents| == 9
    ensures AllEvents[EventIndex(e)] == e
    ensures forall i :: 0 <= i < |AllEvents| ==> EventIndex(AllEvents[i]) == i
  {
  }

  /** `ChzzkChatOptions`. */
  datatype ChatOptions = ChatOptions(
    chatChannelId: string,
    accessToken: string,
    channelId: string,
    pollTime: int)

  const DefaultPollTime: int := 30 * 1000
  const DefaultChatOptions: ChatOptions := ChatOptions("", "", "", DefaultPollTime)

  /** Milliseconds of silence after which a keep-alive ping is sent. */
  const PingTime: int := 20 * 1000
  /** The default of `requestRecentChat`'s count. */
  const DefaultRecentChatCount: int := 50
  /** The default connection timeout: 0 never times out. */
  const DefaultConnectionTimeout: int := 0

  const ServiceId: string := "game"
  const ProtocolVersion: int := 2
  const DeviceType: int := 2001
  /** `config::OS_TYPE` for a build that is neither Android nor Apple. */
  const OsType: string := "PC"

  /** The `_default` object every session frame is updated with. */
  function DefaultFields(chatChannelId: string): Json
  {
    Object([Member("cid", Str(chatChannelId)), Member("svcid", Str(ServiceId)), Member("ver", Number(ProtocolVersion))])
  }

  /** Read-only access without a user id hash, send access with one. */
  function AuthMode(uid: string): (r: string)
    ensures r == "READ" <==> uid == ""
    ensures r == "SEND" <==> uid != ""
  {
    if uid == "" then "READ" else "SEND"
  }

  function ConnectBody(accessToken: string, uid: string): Json
  {
    Object([
      Member("accTkn", Str(accessToken)),
      Member("auth", Str(AuthMode(uid))),
      Member("devType", Number(DeviceType)),
      Member("uid", Str(uid))])
  }

  /** The CONNECT command before `_default` is merged in. */
  function ConnectCommand(accessToken: string, uid: string): Json
  {
    Object([
      Member("bdy", ConnectBody(accessToken, uid)),
      Member("cmd", Number(Code(Connect))),
      Member("tid", Number(1))])
  }

  /** The CONNECT frame `onOpen` sends. */
  function ConnectFrame(accessToken: string, uid: string, defaults: Json): Json
  {
    Update(ConnectCommand(accessToken, uid), defaults)
  }

  function RecentChatBody(count: int): Json
  {
    Object([Member("recentMessageCount", Number(count))])
  }

  function RecentChatCommand(count: int, sid: string): Json
  {
    Object([
      Member("bdy", RecentChatBody(count)),
      Member("cmd", Number(Code(RequestRecentChat))),
      Member("sid", Str(sid)),
      Member("tid", Number(2))])
  }

  /** The REQUEST_RECENT_CHAT frame. */
  function RecentChatFrame(count: int, sid: string, defaults: Json): Json
  {
    Update(RecentChatCommand(count, sid), defaults)
  }

  /** The `extras` object of a sent chat message. */
  function SendExtras(emojis: Json, chatChannelId: string): Json
  {
    Object([
      Member("chatType", Str(DefaultChatType)),
      Member("emojis", emojis),
      Member("osType", Str(OsType)),
      Member("streamingChannelId", Str(chatChannelId))])
  }

  /** The SEND_CHAT frame; `extras` travels as its dumped text and `now` is
      the wall-clock time in milliseconds. */
  function SendChatFrame(message: string, extrasText: string, now: int, sid: string, defaults: Json): Json
  {
    Update(SendChatCommand(message, extrasText, now, sid), defaults)
  }

  function SendChatCommand(message: string, extrasText: string, now: int, sid: string): Json
  {
    Object([
      Member("bdy", SendChatBody(message, extrasText, now)),
      Member("cmd", Number(Code(SendChat))),
      Member("retry", Bool(false)),
      Member("sid", Str(sid)),
      Member("tid", Number(3))])
  }

  function SendChatBody(message: string, extrasText: string, now: int): Json
  {
    Object([
      Member("extras", Str(extrasText)),
      Member("msg", Str(message)),
      Member("msgTime", Number(now)),
      Member("msgTypeCode", Number(TypeCode(TextType)))])
  }

  /** The emoji object built by assigning each (name, url) pair in turn:
      null when there are none. */
  function EmojiObject(emojis: seq<(string, string)>): Json
  {
    if emojis == [] then Null
    else Set(EmojiObject(emojis[..|emojis| - 1]), emojis[|emojis| - 1].0, Str(emojis[|emojis| - 1].1))
  }

  /** A name's last pair decides the url the emoji object holds for it. */
  lemma {:induction false} EmojiObjectLast(emojis: seq<(string, string)>, i: nat)
    requires i < |emojis|
    requires forall k :: i < k < |emojis| ==> emojis[k].0 != emojis[i].0
    ensures Has(EmojiObject(emojis), emojis[i].0)
    ensures Get(EmojiObject(emojis), emojis[i].0) == Str(emojis[i].1)
  {
    var init, last := emojis[..|emojis| - 1], emojis[|emojis| - 1];
    EmojiObjectShape(init);
    GetSet(EmojiObject(init), last.0, Str(last.1), emojis[i].0);
    if i < |emojis| - 1 {
      EmojiObjectLast(init, i);
    }
  }

  /** A name no pair gives is not in the emoji object. */
  lemma {:induction false} EmojiObjectOnlyGiven(emojis: seq<(string, string)>, name: string)
    requires forall k :: 0 <= k < |emojis| ==> emojis[k].0 != name
    ensures !Has(EmojiObject(emojis), name)
  {
    if emojis != [] {
      var init, last := emojis[..|emojis| - 1], emojis[|emojis| - 1];
      EmojiObjectShape(init);
      GetSet(EmojiObject(init), last.0, Str(last.1), name);
      EmojiObjectOnlyGiven(init, name);
    }
  }

  /** No pairs leave the emoji object null; any pair makes it an object. */
  lemma {:induction false} EmojiObjectShape(emojis: seq<(string, string)>)
    ensures emojis == [] <==> EmojiObject(emojis).Null?
    ensures emojis != [] <==> EmojiObject(emojis).Object?
  {
  }

  const PingFrame: Json := Object([Member("cmd", Number(Code(Ping))), Member("ver", Number(ProtocolVersion))])
  const PongFrame: Json := Object([Member("cmd", Number(Code(Pong))), Member("ver", Number(ProtocolVersion))])

  /** `update(_default)` sets the channel id, the service id and the version. */
  lemma UpdateDefaultsSets(base: Json, cid: string)
    requires base.Object?
    ensures var f := Update(base, DefaultFields(cid));
      Get(f, "cid") == Str(cid) && Get(f, "svcid") == Str("game") && Get(f, "ver") == Number(2)
  {
    var d := DefaultFields(cid);
    GetMember(d, 0);
    GetMember(d, 1);
    GetMember(d, 2);
    GetUpdate(base, d, "cid");
    GetUpdate(base, d, "svcid");
    GetUpdate(base, d, "ver");
  }

  /** `update(_default)` keeps every other key of the frame. */
  lemma UpdateDefaultsKeeps(base: Json, cid: string, k: string)
    requires base.Object?
    requires k != "cid" && k != "svcid" && k != "ver"
    ensures Get(Update(base, DefaultFields(cid)), k) == Get(base, k)
  {
    var d := DefaultFields(cid);
    GetAbsent(d, k);
    GetUpdate(base, d, k);
  }

  /** The frame keys are pairwise different; each pair differs in its first
      or second character. */
  lemma FrameKeysDiffer()
    ensures "bdy" != "cmd" && "bdy" != "sid" && "bdy" != "tid" && "bdy" != "cid" && "bdy" != "ver"
    ensures "cmd" != "sid" && "cmd" != "tid" && "cmd" != "cid" && "cmd" != "ver"
    ensures "sid" != "tid" && "sid" != "cid" && "sid" != "ver" && "tid" != "cid" && "tid" != "ver"
    ensures "cid" != "ver"
  {
    assert "bdy"[0] == 'b' && "cmd"[0] == 'c' && "sid"[0] == 's' && "tid"[0] == 't' && "ver"[0] == 'v';
    assert "cmd"[1] == 'm' && "cid"[1] == 'i' && "cid"[0] == 'c';
  }

  /** The CONNECT command: number 100, transaction 1 and its body. */
  lemma ConnectCommandFields(accessToken: string, uid: string)
    ensures var c := ConnectCommand(accessToken, uid);
      && c.Object?
      && Get(c, "cmd") == Number(100) && Get(c, "tid") == Number(1)
      && Get(c, "bdy") == ConnectBody(accessToken, uid)
  {
    var c := ConnectCommand(accessToken, uid);
    GetMember(c, 0); GetMember(c, 1); GetMember(c, 2);
  }

  /** The CONNECT frame is the command with `_default` merged in. */
  lemma ConnectFrameFields(accessToken: string, uid: string, cid: string)
    ensures var f := ConnectFrame(accessToken, uid, DefaultFields(cid));
      && Get(f, "cmd") == Number(100) && Get(f, "tid") == Number(1)
      && Get(f, "bdy") == ConnectBody(accessToken, uid)
      && Get(f, "cid") == Str(cid) && Get(f, "svcid") == Str("game") && Get(f, "ver") == Number(2)
  {
    var c := ConnectCommand(accessToken, uid);
    ConnectCommandFields(accessToken, uid);
    FrameKeysDiffer();
    UpdateDefaultsKeeps(c, cid, "cmd"); UpdateDefaultsKeeps(c, cid, "tid"); UpdateDefaultsKeeps(c, cid, "bdy");
    UpdateDefaultsSets(c, cid);
  }

  /** The CONNECT body carries the access token and the user id hash, and
      asks for read access exactly when that hash is empty. */
  lemma ConnectBodyFields(accessToken: string, uid: string)
    ensures var b := ConnectBody(accessToken, uid);
      && Get(b, "accTkn") == Str(accessToken)
      && Get(b, "uid") == Str(uid)
      && Get(b, "devType") == Number(2001)
      && (Get(b, "auth") == Str("READ") <==> uid == "")
      && (Get(b, "auth") == Str("SEND") <==> uid != "")
  {
    var b := ConnectBody(accessToken, uid);
    GetMember(b, 0); GetMember(b, 1); GetMember(b, 2); GetMember(b, 3);
  }

  /** The REQUEST_RECENT_CHAT command: number 5101, transaction 2, the
      session id and the count. */
  lemma RecentChatCommandFields(count: int, sid: string)
    ensures var c := RecentChatCommand(count, sid);
      && c.Object?
      && Get(c, "cmd") == Number(5101) && Get(c, "tid") == Number(2) && Get(c, "sid") == Str(sid)
      && Get(c, "bdy") == RecentChatBody(count)
      && Get(RecentChatBody(count), "recentMessageCount") == Number(count)
  {
    var c := RecentChatCommand(count, sid);
    GetMember(c, 0); GetMember(c, 1); GetMember(c, 2); GetMember(c, 3);
    GetMember(RecentChatBody(count), 0);
  }

  /** The REQUEST_RECENT_CHAT frame is the command with `_default` merged in. */
  lemma RecentChatFrameFields(count: int, sid: string, cid: string)
    ensures var f := RecentChatFrame(count, sid, DefaultFields(cid));
      && Get(f, "cmd") == Number(5101) && Get(f, "tid") == Number(2) && Get(f, "sid") == Str(sid)
      && Get(f, "cid") == Str(cid) && Get(f, "svcid") == Str("game") && Get(f, "ver") == Number(2)
      && Get(Get(f, "bdy"), "recentMessageCount") == Number(count)
  {
    var c := RecentChatCommand(count, sid);
    RecentChatCommandFields(count, sid);
    FrameKeysDiffer();
    UpdateDefaultsKeeps(c, cid, "cmd"); UpdateDefaultsKeeps(c, cid, "tid");
    UpdateDefaultsKeeps(c, cid, "sid"); UpdateDefaultsKeeps(c, cid, "bdy");
    UpdateDefaultsSets(c, cid);
  }

  /** The SEND_CHAT command: number 3101, no retry and its body ... */
  lemma SendChatCommandFields(message: string, extrasText: string, now: int, sid: string)
    ensures var c := SendChatCommand(message, extrasText, now, sid);
      && c.Object?
      && Get(c, "bdy") == SendChatBody(message, extrasText, now)
      && Get(c, "cmd") == Number(3101) && Get(c, "retry") == Bool(false)
  {
    var c := SendChatCommand(message, extrasText, now, sid);
    GetMember(c, 0); GetMember(c, 1); GetMember(c, 2);
  }

  /** ... and the session id with transaction 3. */
  lemma SendChatCommandSession(message: string, extrasText: string, now: int, sid: string)
    ensures var c := SendChatCommand(message, extrasText, now, sid);
      Get(c, "sid") == Str(sid) && Get(c, "tid") == Number(3)
  {
    var c := SendChatCommand(message, extrasText, now, sid);
    GetMember(c, 3); GetMember(c, 4);
  }

  /** The SEND_CHAT frame is the command with `_default` merged in. */
  lemma SendChatFrameFields(message: string, extrasText: string, now: int, sid: string, cid: string)
    ensures var f := SendChatFrame(message, extrasText, now, sid, DefaultFields(cid));
      && Get(f, "cmd") == Number(3101) && Get(f, "tid") == Number(3)
      && Get(f, "sid") == Str(sid) && Get(f, "retry") == Bool(false)
      && Get(f, "bdy") == SendChatBody(message, extrasText, now)
      && Get(f, "cid") == Str(cid) && Get(f, "svcid") == Str("game") && Get(f, "ver") == Number(2)
  {
    var c := SendChatCommand(message, extrasText, now, sid);
    SendChatCommandFields(message, extrasText, now, sid);
    SendChatCommandSession(message, extrasText, now, sid);
    FrameKeysDiffer();
    UpdateDefaultsKeeps(c, cid, "cmd"); UpdateDefaultsKeeps(c, cid, "tid");
    UpdateDefaultsKeeps(c, cid, "sid"); UpdateDefaultsKeeps(c, cid, "retry"); UpdateDefaultsKeeps(c, cid, "bdy");
    UpdateDefaultsSets(c, cid);
  }

  /** The SEND_CHAT body: the text, its time, the TEXT type code and the
      dumped extras. */
  lemma SendChatBodyFields(message: string, extrasText: string, now: int)
    ensures var b := SendChatBody(message, extrasText, now);
      && Get(b, "extras") == Str(extrasText)
      && Get(b, "msg") == Str(message)
      && Get(b, "msgTime") == Number(now)
      && Get(b, "msgTypeCode") == Number(1)
  {
    var b := SendChatBody(message, extrasText, now);
    GetMember(b, 0); GetMember(b, 1); GetMember(b, 2); GetMember(b, 3);
  }

  /** A `char` as MSVC sums it: the low byte read as a signed value. */
  function SignedChar(c: char): (r: int)
    ensures -128 <= r < 128
    ensures (r - c as int) % 256 == 0
  {
    var b := c as int % 256;
    if b >= 128 then b - 256 else b
  }

  /** The sum of the characters of `s`. */
  function CharSum(s: string): int
  {
    if s == [] then 0 else CharSum(s[..|s| - 1]) + SignedChar(s[|s| - 1])
  }

  /** C++'s `%`, which truncates toward zero: the remainder takes the sign of
      the dividend. */
  function TruncRem(a: int, d: int): (r: int)
    requires d > 0
    ensures a >= 0 ==> 0 <= r < d
    ensures a < 0 ==> -d < r <= 0
    ensures a >= 0 ==> r == a % d
    ensures a < 0 ==> -r == (-a) % d
  {
    if a >= 0 then a % d else -((-a) % d)
  }

  /** The server a chat channel is served by. */
  function Selector(chatChannelId: string): int
  {
    TruncRem(CharSum(chatChannelId), 9) + 1
  }

  /** The selector loop of `connect`. */
  method ServerId(chatChannelId: string) returns (id: int)
    ensures id == Selector(chatChannelId)
  {
    var sum := 0;
    for i := 0 to |chatChannelId|
      invariant sum == CharSum(chatChannelId[..i])
    {
      assert chatChannelId[..i + 1][..i] == chatChannelId[..i];
      sum := sum + SignedChar(chatChannelId[i]);
    }
    assert chatChannelId[..|chatChannelId|] == chatChannelId;
    id := TruncRem(sum, 9) + 1;
  }

  /** Characters below 128 add up to a non-negative sum. */
  lemma {:induction false} AsciiSumNonNegative(s: string)
    requires forall i :: 0 <= i < |s| ==> s[i] as int % 256 < 128
    ensures CharSum(s) >= 0
  {
    if s != [] {
      AsciiSumNonNegative(s[..|s| - 1]);
    }
  }

  /** The selector names one of the servers 1 to 9 whenever the sum is not
      negative, which holds for ids of characters below 128; a negative sum
      gives a value from -7 to 1. */
  lemma SelectorRange(chatChannelId: string)
    ensures CharSum(chatChannelId) >= 0 ==> 1 <= Selector(chatChannelId) <= 9
    ensures CharSum(chatChannelId) < 0 ==> -7 <= Selector(chatChannelId) <= 1
    ensures (forall i :: 0 <= i < |chatChannelId| ==> chatChannelId[i] as int % 256 < 128)
      ==> 1 <= Selector(chatChannelId) <= 9
  {
    if forall i :: 0 <= i < |chatChannelId| ==> chatChannelId[i] as int % 256 < 128 {
      AsciiSumNonNegative(chatChannelId);
    }
  }

  /** The chat socket address `connect` builds: the prefix, the selector in
      decimal and the suffix; the selector can be read back from it. */
  lemma ChatSocketAddress(chatChannelId: string)
    ensures var p := ChatSocketPath(Selector(chatChannelId));
      && p[..|ChatSocketPrefix|] == ChatSocketPrefix
      && p[|p| - |ChatSocketSuffix|..] == ChatSocketSuffix
      && ParseInt(p[|ChatSocketPrefix|..|p| - |ChatSocketSuffix|]) == Selector(chatChannelId)
  {
    var n := IntToString(Selector(chatChannelId));
    var p := ChatSocketPath(Selector(chatChannelId));
    assert p == ChatSocketPrefix + n + ChatSocketSuffix;
    SliceMiddle(ChatSocketPrefix, n, ChatSocketSuffix);
    IntToStringRoundTrip(Selector(chatChannelId));
  }
}

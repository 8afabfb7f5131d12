/** What `onMessage` (src/ChzzkChat.cpp) makes of one inbound frame, as pure
    functions: the decoding of the frame, the routing of chat entries to
    handler categories, and the sequence of deliveries a chat-family command
    produces. It also holds the tick arithmetic of the keep-alive and polling
    loops and the reassembly of websocket fragments done by `_receive`. */
module ChatDispatch {
  import opened Wrappers
  import opened JsonModel
  import opened ApiPaths
  import opened ChatProtocol
  import opened ChatPayload

  /** The string a handler receives: a literal, or the `dump()` of a
      document (the text itself is left to the uninterpreted `dump`). */
  datatype Payload = Literal(text: string) | Dumped(doc: Json)

  /** One `call(type, message)`. */
  datatype Delivery = Delivery(event: ChatEvent, payload: Payload)

  /** The deliveries made in order, and the conversion error that ended the
      handling early, if one did. */
  datatype Trace = Trace(deliveries: seq<Delivery>, failure: Option<JsonError>)

  /** A decoded frame: its command code and its body. */
  datatype Inbound = Inbound(code: int, body: Json)

  /** The conversion of a value to one of the enums: only a number converts,
      cast to the enum's `int`. */
  function EnumValue(j: Json): (r: Result<int, JsonError>)
    ensures r.Success? <==> j.Number?
    ensures r.Success? ==> r.value == Int32(j.n)
  {
    if j.Number? then Success(Int32(j.n)) else Failure(WrongType("number"))
  }

  /** The start of `onMessage`: an empty message and a text the library
      cannot parse are dropped (None); otherwise `bdy` and `cmd` are read
      through the non-const `operator[]`, which throws unless the document is
      an object or null, and `cmd` must convert to the command enum. */
  function DecodeFrame(codec: TextCodec, message: string): (r: Result<Option<Inbound>, JsonError>)
    ensures message == "" ==> r == Success(None)
    ensures message != "" && codec.parse(message).None? ==> r == Success(None)
    ensures r.Success? && r.value.Some? ==>
      && message != "" && codec.parse(message).Some?
      && r.value.value.body == Get(codec.parse(message).value, "bdy")
      && Get(codec.parse(message).value, "cmd").Number?
      && r.value.value.code == Int32(Get(codec.parse(message).value, "cmd").n)
    ensures r.Failure? <==>
      && message != "" && codec.parse(message).Some?
      && var j := codec.parse(message).value;
         !((j.Object? || j.Null?) && Get(j, "cmd").Number?)
  {
    if message == "" then Success(None)
    else
      match codec.parse(message)
      case None => Success(None)
      case Some(j) =>
        var body :- Slot(j, "bdy");
        var code :- EnumValue(Get(j, "cmd"));
        Success(Some(Inbound(code, body)))
  }

  /** The category a chat entry of the given type code is delivered under:
      TEXT, DONATION, SUBSCRIPTION and SYSTEM_MESSAGE have one, every other
      code none. */
  function Route(code: int): (r: Option<ChatEvent>)
    ensures r == Some(ChatMessageEvent) <==> code == TypeCode(TextType)
    ensures r == Some(DonationEvent) <==> code == TypeCode(DonationType)
    ensures r == Some(SubscriptionEvent) <==> code == TypeCode(SubscriptionType)
    ensures r == Some(SystemMessageEvent) <==> code == TypeCode(SystemMessageType)
    ensures r.Some? ==> r.value in {ChatMessageEvent, DonationEvent, SubscriptionEvent, SystemMessageEvent}
  {
    match TypeOf(code)
    case Some(TextType) => Some(ChatMessageEvent)
    case Some(DonationType) => Some(DonationEvent)
    case Some(SubscriptionType) => Some(SubscriptionEvent)
    case Some(SystemMessageType) => Some(SystemMessageEvent)
    case _ => None
  }

  /** An entry's type code: `msgTypeCode`, else `messageTypeCode`, else
      NONE. */
  function EntryType(chat: Json): (r: Result<int, JsonError>)
    ensures Has(chat, "msgTypeCode") ==> r == EnumValue(Get(chat, "msgTypeCode"))
    ensures !Has(chat, "msgTypeCode") && Has(chat, "messageTypeCode") ==> r == EnumValue(Get(chat, "messageTypeCode"))
    ensures !Has(chat, "msgTypeCode") && !Has(chat, "messageTypeCode") ==> r == Success(TypeCode(NoneType))
  {
    if Has(chat, "msgTypeCode") then EnumValue(Get(chat, "msgTypeCode"))
    else if Has(chat, "messageTypeCode") then EnumValue(Get(chat, "messageTypeCode"))
    else Success(0)
  }

  /** One turn of the entry loop: the type is read, the entry is normalised,
      and it is delivered when its type has a category. */
  function EntryStep(chat: Json, isRecent: bool, codec: TextCodec): (r: Result<Option<Delivery>, JsonError>)
    ensures r.Success? <==> EntryType(chat).Success? && ParseChat(chat, isRecent, codec).Success?
    ensures r.Success? ==> (r.value.Some? <==> Route(EntryType(chat).value).Some?)
    ensures r.Success? && r.value.Some? ==>
      r.value.value == Delivery(Route(EntryType(chat).value).value, Dumped(ParseChat(chat, isRecent, codec).value))
  {
    var code :- EntryType(chat);
    var doc :- ParseChat(chat, isRecent, codec);
    match Route(code)
    case Some(e) => Success(Some(Delivery(e, Dumped(doc))))
    case None => Success(None)
  }

  function Deliveries(d: Option<Delivery>): seq<Delivery>
  {
    if d.Some? then [d.value] else []
  }

  /** The deliveries of a loop whose turns had the given outcomes, stopping
      at the first turn that throws. */
  function Run(steps: seq<Result<Option<Delivery>, JsonError>>): (t: Trace)
    ensures |t.deliveries| <= |steps|
  {
    if steps == [] then Trace([], None)
    else
      var t := Run(steps[..|steps| - 1]);
      if t.failure.Some? then t
      else
        match steps[|steps| - 1]
        case Failure(e) => Trace(t.deliveries, Some(e))
        case Success(d) => Trace(t.deliveries + Deliveries(d), None)
  }

  /** The outcome of each entry's turn. */
  function Steps(entries: seq<Json>, isRecent: bool, codec: TextCodec): (r: seq<Result<Option<Delivery>, JsonError>>)
    ensures |r| == |entries|
    ensures forall i :: 0 <= i < |entries| ==> r[i] == EntryStep(entries[i], isRecent, codec)
  {
    seq(|entries|, i requires 0 <= i < |entries| => EntryStep(entries[i], isRecent, codec))
  }

  /** The deliveries of the entry loop over `entries`. */
  function EntryTrace(entries: seq<Json>, isRecent: bool, codec: TextCodec): (t: Trace)
    ensures |t.deliveries| <= |entries|
  {
    Run(Steps(entries, isRecent, codec))
  }

  /** The `notice` member of a chat-family body, null when there is none. */
  function NoticeOf(body: Json): Json
  {
    if Has(body, "notice") then Get(body, "notice") else Null
  }

  /** The entries: the elements of `messageList` when the body has one (recent
      chat), else the elements of the body itself. */
  function EntriesOf(body: Json): seq<Json>
  {
    Elements(if Has(body, "messageList") then Get(body, "messageList") else body)
  }

  /** The notice's turn: nothing for an empty notice, else its normalised
      document as one NOTICE delivery, or the failure of normalising it. */
  function NoticeTrace(notice: Json, isRecent: bool, codec: TextCodec): (t: Trace)
    ensures t.failure.Some? ==> t.deliveries == []
    ensures IsEmpty(notice) ==> t == Trace([], None)
  {
    if IsEmpty(notice) then Trace([], None)
    else
      match ParseChat(notice, isRecent, codec)
      case Failure(e) => Trace([], Some(e))
      case Success(doc) => Trace([Delivery(NoticeEvent, Dumped(doc))], None)
  }

  /** CHAT, RECENT_CHAT and DONATION: a non-empty notice is normalised and
      delivered first, then every entry in turn. */
  function ChatTrace(body: Json, isRecent: bool, codec: TextCodec): (t: Trace)
  {
    var entries := EntryTrace(EntriesOf(body), isRecent, codec);
    if IsEmpty(NoticeOf(body)) then entries
    else
      match ParseChat(NoticeOf(body), isRecent, codec)
      case Failure(e) => Trace([], Some(e))
      case Success(doc) => Trace([Delivery(NoticeEvent, Dumped(doc))] + entries.deliveries, entries.failure)
  }

  /** What an entry's delivery is: one of the four chat categories, carrying
      a normalised document that echoes `isRecent`. */
  predicate EntryDelivery(d: Delivery, isRecent: bool)
  {
    && d.event in {ChatMessageEvent, DonationEvent, SubscriptionEvent, SystemMessageEvent}
    && d.payload.Dumped?
    && Get(d.payload.doc, "isRecent") == Bool(isRecent)
  }

  /** A single entry's delivery, when it has one, is such a delivery. */
  lemma EntryStepDelivers(chat: Json, isRecent: bool, codec: TextCodec)
    ensures var step := EntryStep(chat, isRecent, codec);
      step.Success? && step.value.Some? ==> EntryDelivery(step.value.value, isRecent)
  {
    if ParseChat(chat, isRecent, codec).Success? {
      ParseChatCarries(chat, isRecent, codec);
    }
  }

  /** Every delivery of a run is one its turns made. */
  lemma {:induction false} RunDeliveries(steps: seq<Result<Option<Delivery>, JsonError>>, isRecent: bool)
    requires forall k :: 0 <= k < |steps| && steps[k].Success? && steps[k].value.Some? ==>
      EntryDelivery(steps[k].value.value, isRecent)
    ensures forall i :: 0 <= i < |Run(steps).deliveries| ==> EntryDelivery(Run(steps).deliveries[i], isRecent)
  {
    if steps != [] {
      RunDeliveries(steps[..|steps| - 1], isRecent);
    }
  }

  /** Entries are only ever delivered under the four chat categories, each as
      a normalised document that echoes `isRecent`. */
  lemma EntryTraceEvents(entries: seq<Json>, isRecent: bool, codec: TextCodec)
    ensures var t := EntryTrace(entries, isRecent, codec);
      forall i :: 0 <= i < |t.deliveries| ==> EntryDelivery(t.deliveries[i], isRecent)
  {
    var steps := Steps(entries, isRecent, codec);
    forall k | 0 <= k < |steps| && steps[k].Success? && steps[k].value.Some?
      ensures EntryDelivery(steps[k].value.value, isRecent)
    {
      EntryStepDelivers(entries[k], isRecent, codec);
    }
    RunDeliveries(steps, isRecent);
  }

  /** A run whose every turn delivers has one delivery per turn, in order. */
  lemma {:induction false} RunAllDeliver(steps: seq<Result<Option<Delivery>, JsonError>>)
    requires forall k :: 0 <= k < |steps| ==> steps[k].Success? && steps[k].value.Some?
    ensures Run(steps).failure.None?
    ensures |Run(steps).deliveries| == |steps|
    ensures forall i :: 0 <= i < |steps| ==> steps[i] == Success(Some(Run(steps).deliveries[i]))
  {
    if steps != [] {
      RunAllDeliver(steps[..|steps| - 1]);
    }
  }

  /** When every entry has a category and none throws, there is exactly one
      delivery per entry, in the entries' order. */
  lemma AllRoutedOnePerEntry(entries: seq<Json>, isRecent: bool, codec: TextCodec)
    requires forall i :: 0 <= i < |entries| ==> Routed(entries[i], isRecent, codec)
    ensures var t := EntryTrace(entries, isRecent, codec);
      && t.failure.None?
      && |t.deliveries| == |entries|
      && forall i :: 0 <= i < |entries| ==> EntryStep(entries[i], isRecent, codec) == Success(Some(t.deliveries[i]))
  {
    RunAllDeliver(Steps(entries, isRecent, codec));
  }

  /** The entry is handled without an exception and has a category. */
  predicate Routed(chat: Json, isRecent: bool, codec: TextCodec)
  {
    EntryStep(chat, isRecent, codec).Success? && EntryStep(chat, isRecent, codec).value.Some?
  }

  /** A non-empty notice that normalises gives exactly one NOTICE delivery,
      and it comes before every entry's. */
  lemma NoticeComesFirst(body: Json, isRecent: bool, codec: TextCodec)
    requires !IsEmpty(NoticeOf(body)) && ParseChat(NoticeOf(body), isRecent, codec).Success?
    ensures var t := ChatTrace(body, isRecent, codec);
      && |t.deliveries| >= 1
      && t.deliveries[0] == Delivery(NoticeEvent, Dumped(ParseChat(NoticeOf(body), isRecent, codec).value))
      && forall i :: 1 <= i < |t.deliveries| ==> t.deliveries[i].event != NoticeEvent
  {
    EntryTraceEvents(EntriesOf(body), isRecent, codec);
  }

  /** An empty or absent notice gives no NOTICE delivery at all. */
  lemma NoNoticeNoNoticeEvent(body: Json, isRecent: bool, codec: TextCodec)
    requires IsEmpty(NoticeOf(body))
    ensures var t := ChatTrace(body, isRecent, codec);
      forall i :: 0 <= i < |t.deliveries| ==> t.deliveries[i].event != NoticeEvent
  {
    EntryTraceEvents(EntriesOf(body), isRecent, codec);
  }

  /** A recent-chat body's entries come from `messageList`. */
  lemma RecentEntriesFromList(body: Json, list: seq<Json>)
    requires body.Object? && Has(body, "messageList") && Get(body, "messageList") == Array(list)
    ensures EntriesOf(body) == list
  {
  }

  /** `sid = body["sid"]`: the body is read through the non-const
      `operator[]` and the member has to convert to a string. */
  function SessionId(body: Json): (r: Result<string, JsonError>)
    ensures r.Success? <==> (body.Object? || body.Null?) && Get(body, "sid").Str?
    ensures r.Success? ==> Get(body, "sid") == Str(r.value)
  {
    var v :- Slot(body, "sid");
    ToText(v)
  }

  /** NOTICE: an empty or null body is delivered as an empty text. Any other
      body is normalised by `parseChat` (which may throw first), and the
      resulting document cannot convert to the handler's string argument. */
  function NoticeDelivery(body: Json, codec: TextCodec): (r: Result<Delivery, JsonError>)
    ensures r.Success? <==> IsEmpty(body)
    ensures r.Success? ==> r.value == Delivery(NoticeEvent, Literal(""))
    ensures !IsEmpty(body) && ParseChat(body, false, codec).Failure? ==> r == Failure(ParseChat(body, false, codec).error)
  {
    if IsEmpty(body) then Success(Delivery(NoticeEvent, Literal("")))
    else
      var _ :- ParseChat(body, false, codec);
      Failure(WrongType("string"))
  }

  /** BLIND: a string body is passed on as it is, anything else dumped. */
  function BlindDelivery(body: Json): Delivery
  {
    Delivery(BlindEvent, if body.Str? then Literal(body.s) else Dumped(body))
  }

  /** What one decoded frame makes the session do: the deliveries in order,
      the frames it answers with, the session id it takes, and the conversion
      error that ended the handling, if one did. */
  datatype Reaction = Reaction(deliveries: seq<Delivery>, replies: seq<Json>, sid: Option<string>, failure: Option<JsonError>)

  const Nothing: Reaction := Reaction([], [], None, None)

  function ChatReaction(body: Json, isRecent: bool, codec: TextCodec): Reaction
  {
    var t := ChatTrace(body, isRecent, codec);
    Reaction(t.deliveries, [], None, t.failure)
  }

  /** The `switch (cmd)` of `onMessage`. */
  function React(inbound: Inbound, codec: TextCodec, reconnecting: bool, chatChannelId: string): Reaction
  {
    var body := inbound.body;
    match CommandOf(inbound.code)
    case Some(Connected) =>
      (match SessionId(body)
       case Failure(e) => Reaction([], [], None, Some(e))
       case Success(s) =>
         var d := if reconnecting then Delivery(ReconnectEvent, Literal(chatChannelId))
                  else Delivery(ConnectEvent, Literal(""));
         Reaction([d], [], Some(s), None))
    case Some(Ping) => Reaction([], [PongFrame], None, None)
    case Some(Chat) => ChatReaction(body, false, codec)
    case Some(RecentChat) => ChatReaction(body, true, codec)
    case Some(Donation) => ChatReaction(body, false, codec)
    case Some(Notice) =>
      (match NoticeDelivery(body, codec)
       case Failure(e) => Reaction([], [], None, Some(e))
       case Success(d) => Reaction([d], [], None, None))
    case Some(Blind) => Reaction([BlindDelivery(body)], [], None, None)
    case _ => Nothing
  }

  /** CONNECTED (10100) takes the session id and announces the connection:
      RECONNECT with the chat channel id while reconnecting, CONNECT with an
      empty text otherwise; a body without a string `sid` throws. */
  lemma ReactConnected(inbound: Inbound, codec: TextCodec, reconnecting: bool, chatChannelId: string)
    requires inbound.code == 10100
    ensures var x := React(inbound, codec, reconnecting, chatChannelId);
      && x.replies == []
      && (x.failure.None? <==> (inbound.body.Object? || inbound.body.Null?) && Get(inbound.body, "sid").Str?)
      && (x.failure.None? ==> x.sid == Some(Get(inbound.body, "sid").s))
      && (x.failure.None? && reconnecting ==> x.deliveries == [Delivery(ReconnectEvent, Literal(chatChannelId))])
      && (x.failure.None? && !reconnecting ==> x.deliveries == [Delivery(ConnectEvent, Literal(""))])
      && (x.failure.Some? ==> x.deliveries == [] && x.sid.None?)
  {
  }

  /** Only a CONNECTED frame sets the session id, and only a PING (0) is
      answered, with exactly one PONG. */
  lemma ReactReplies(inbound: Inbound, codec: TextCodec, reconnecting: bool, chatChannelId: string)
    ensures var x := React(inbound, codec, reconnecting, chatChannelId);
      && (x.sid.Some? ==> inbound.code == Code(Connected))
      && (x.replies != [] <==> inbound.code == Code(Ping))
      && (x.replies != [] ==> x.replies == [PongFrame] && x.deliveries == [] && x.failure.None?)
  {
  }

  /** CHAT (93101), RECENT_CHAT (15101) and DONATION (93102) deliver the
      chat trace of the body, `isRecent` being set for RECENT_CHAT alone, and
      every delivery is either the notice or an entry that echoes it. */
  lemma ReactChats(inbound: Inbound, codec: TextCodec, reconnecting: bool, chatChannelId: string)
    requires inbound.code in {93101, 15101, 93102}
    ensures var x := React(inbound, codec, reconnecting, chatChannelId);
      var isRecent := inbound.code == 15101;
      && x.deliveries == ChatTrace(inbound.body, isRecent, codec).deliveries
      && x.failure == ChatTrace(inbound.body, isRecent, codec).failure
      && x.replies == [] && x.sid.None?
      && forall i :: 0 <= i < |x.deliveries| ==>
           x.deliveries[i].event == NoticeEvent || EntryDelivery(x.deliveries[i], isRecent)
  {
    var isRecent := inbound.code == 15101;
    assert React(inbound, codec, reconnecting, chatChannelId) == ChatReaction(inbound.body, isRecent, codec);
    ChatReactionDeliveries(inbound.body, isRecent, codec);
  }

  /** The reaction to a chat-family body is its chat trace, with no reply. */
  lemma ChatReactionDeliveries(body: Json, isRecent: bool, codec: TextCodec)
    ensures var x := ChatReaction(body, isRecent, codec);
      && x.deliveries == ChatTrace(body, isRecent, codec).deliveries
      && x.failure == ChatTrace(body, isRecent, codec).failure
      && x.replies == [] && x.sid.None?
      && forall i :: 0 <= i < |x.deliveries| ==>
           x.deliveries[i].event == NoticeEvent || EntryDelivery(x.deliveries[i], isRecent)
  {
    ChatTraceDeliveries(body, isRecent, codec);
  }

  /** A chat trace delivers the notice and entries only. */
  lemma ChatTraceDeliveries(body: Json, isRecent: bool, codec: TextCodec)
    ensures var t := ChatTrace(body, isRecent, codec);
      forall i :: 0 <= i < |t.deliveries| ==>
        t.deliveries[i].event == NoticeEvent || EntryDelivery(t.deliveries[i], isRecent)
  {
    EntryTraceEvents(EntriesOf(body), isRecent, codec);
  }

  /** NOTICE (94010) succeeds exactly for an empty or null body, with one
      NOTICE delivery of an empty text. */
  lemma ReactNotice(inbound: Inbound, codec: TextCodec, reconnecting: bool, chatChannelId: string)
    requires inbound.code == 94010
    ensures var x := React(inbound, codec, reconnecting, chatChannelId);
      && (x.failure.None? <==> IsEmpty(inbound.body))
      && (x.failure.None? ==> x.deliveries == [Delivery(NoticeEvent, Literal(""))])
      && (x.failure.Some? ==> x.deliveries == [])
  {
  }

  /** BLIND (94008) delivers the body once: a string as it is, anything else
      as its dump. */
  lemma ReactBlind(inbound: Inbound, codec: TextCodec, reconnecting: bool, chatChannelId: string)
    requires inbound.code == 94008
    ensures var x := React(inbound, codec, reconnecting, chatChannelId);
      && x.failure.None? && |x.deliveries| == 1 && x.deliveries[0].event == BlindEvent
      && (inbound.body.Str? ==> x.deliveries[0].payload == Literal(inbound.body.s))
      && (!inbound.body.Str? ==> x.deliveries[0].payload == Dumped(inbound.body))
  {
  }

  /** Every other command, known or not, is ignored. */
  lemma ReactIgnores(inbound: Inbound, codec: TextCodec, reconnecting: bool, chatChannelId: string)
    requires inbound.code !in {10100, 0, 93101, 15101, 93102, 94010, 94008}
    ensures React(inbound, codec, reconnecting, chatChannelId) == Nothing
  {
  }

  /** One more turn of a run that has not failed. */
  lemma RunNext(steps: seq<Result<Option<Delivery>, JsonError>>, i: nat)
    requires i < |steps| && Run(steps[..i]).failure.None?
    ensures steps[i].Failure? ==> Run(steps[..i + 1]) == Trace(Run(steps[..i]).deliveries, Some(steps[i].error))
    ensures steps[i].Success? ==> Run(steps[..i + 1]) == Trace(Run(steps[..i]).deliveries + Deliveries(steps[i].value), None)
  {
    assert steps[..i + 1][..i] == steps[..i];
  }

  /** A failing turn ends the run: nothing after it counts. */
  lemma {:induction false} RunStops(steps: seq<Result<Option<Delivery>, JsonError>>, n: nat)
    requires n <= |steps| && Run(steps[..n]).failure.Some?
    ensures Run(steps) == Run(steps[..n])
    decreases |steps| - n
  {
    if n < |steps| {
      assert steps[..n + 1][..n] == steps[..n];
      RunStops(steps, n + 1);
    } else {
      assert steps[..n] == steps;
    }
  }

  // The keep-alive loop of `sendPing`, one iteration per 10 ms tick.

  /** One tick: the counter moves on by 10 and a ping goes out, resetting it,
      once it reaches `PING_TIME`. */
  function PingStep(count: int): (r: (int, bool))
  {
    if count + 10 >= PingTime then (0, true) else (count + 10, false)
  }

  /** The counter and the number of pings after `n` ticks from zero. */
  function PingRun(n: nat): (r: (int, nat))
  {
    if n == 0 then (0, 0)
    else
      var (count, pings) := PingRun(n - 1);
      var (next, fired) := PingStep(count);
      (next, if fired then pings + 1 else pings)
  }

  /** A ping goes out every 2000 ticks, that is every 20 seconds: after `n`
      ticks the counter holds `10 * (n % 2000)` and `n / 2000` pings were sent. */
  lemma {:induction false} PingSchedule(n: nat)
    ensures PingRun(n) == (10 * (n % 2000), n / 2000)
  {
    if n > 0 {
      PingSchedule(n - 1);
    }
  }

  // The polling loop of `updateChatChannelID`, one iteration per tick.

  /** One tick: it polls when the counter has reached `pollTime` (and then
      restarts it), and the counter moves on by 10. */
  function PollStep(count: int, pollTime: int): (r: (int, bool))
    ensures r.1 <==> count >= pollTime
    ensures r.0 == (if count >= pollTime then 0 else count) + 10
  {
    if count >= pollTime then (10, true) else (count + 10, false)
  }

  /** The counter before tick `n`, starting from `pollTime`. */
  function PollCount(n: nat, pollTime: int): int
  {
    if n == 0 then pollTime else PollStep(PollCount(n - 1, pollTime), pollTime).0
  }

  /** The first tick polls at once. */
  lemma PollFirst(pollTime: int)
    ensures PollStep(PollCount(0, pollTime), pollTime).1
  {
  }

  /** For a positive `pollTime`, the `i`-th tick after a poll finds the
      counter at `10 * i` and polls again exactly when `i` reaches
      `pollTime / 10` rounded up: one poll every `pollTime` milliseconds,
      rounded up to a multiple of the 10 ms tick. */
  lemma {:induction false} PollPeriod(m: nat, i: nat, pollTime: int)
    requires pollTime > 0
    requires PollStep(PollCount(m, pollTime), pollTime).1
    requires 1 <= i <= (pollTime + 9) / 10
    ensures PollCount(m + i, pollTime) == 10 * i
    ensures PollStep(PollCount(m + i, pollTime), pollTime).1 <==> i == (pollTime + 9) / 10
  {
    if i > 1 {
      PollPeriod(m, i - 1, pollTime);
    }
  }

  // The reassembly of websocket fragments in `_receive`.

  /** One `curl_ws_recv`: a fragment and the bytes of its frame still to
      come, nothing, "try again", or an error with the library's text. */
  datatype Received = Chunk(data: string, bytesLeft: nat) | GotNothing | Again | Failed(errorText: string)

  /** The messages handed to `onMessage`, the fragments gathered towards the
      next one, and the error that ended the loop, if one did. */
  datatype Reassembly = Reassembly(messages: seq<string>, pending: string, error: Option<string>)

  const ReceiveErrorPrefix: string := "Error occured receiving message: "

  /** The part of a fragment `message += buffer` appends: the buffer is read
      as a C string, so up to its first NUL. */
  function CText(data: string): string
  {
    UpTo(data, '\0')
  }

  function Reassemble(rs: seq<Received>): (r: Reassembly)
  {
    if rs == [] then Reassembly([], "", None)
    else
      var r := Reassemble(rs[..|rs| - 1]);
      if r.error.Some? then r
      else
        match rs[|rs| - 1]
        case Chunk(data, left) =>
          if left == 0 then Reassembly(r.messages + [r.pending + CText(data)], "", None)
          else Reassembly(r.messages, r.pending + CText(data), None)
        case Failed(text) => Reassembly(r.messages, r.pending, Some(ReceiveErrorPrefix + text))
        case _ => r
  }

  /** The receive loop over the results of successive `curl_ws_recv` calls. */
  method CollectMessages(rs: seq<Received>) returns (messages: seq<string>, pending: string, error: Option<string>)
    ensures Reassembly(messages, pending, error) == Reassemble(rs)
  {
    messages, pending, error := [], "", None;
    var i := 0;
    while i < |rs|
      invariant 0 <= i <= |rs|
      invariant Reassembly(messages, pending, error) == Reassemble(rs[..i])
      invariant error.None?
    {
      assert rs[..i + 1][..i] == rs[..i];
      match rs[i] {
        case Chunk(data, left) =>
          pending := pending + CText(data);
          if left == 0 {
            messages := messages + [pending];
            pending := "";
          }
        case Failed(text) =>
          error := Some(ReceiveErrorPrefix + text);
          ReassembleStops(rs, i + 1);
          return;
        case GotNothing =>
        case Again =>
      }
      i := i + 1;
    }
    assert rs[..i] == rs;
  }

  /** Once an error is reached nothing after it counts. */
  lemma {:induction false} ReassembleStops(rs: seq<Received>, n: nat)
    requires n <= |rs| && Reassemble(rs[..n]).error.Some?
    ensures Reassemble(rs) == Reassemble(rs[..n])
    decreases |rs| - n
  {
    if n < |rs| {
      assert rs[..n + 1][..n] == rs[..n];
      ReassembleStops(rs, n + 1);
    } else {
      assert rs[..n] == rs;
    }
  }

  function Concat(ss: seq<string>): string
  {
    if ss == [] then "" else Concat(ss[..|ss| - 1]) + ss[|ss| - 1]
  }

  function ChunkText(rs: seq<Received>): seq<string>
  {
    if rs == [] then []
    else ChunkText(rs[..|rs| - 1]) + (if rs[|rs| - 1].Chunk? then [CText(rs[|rs| - 1].data)] else [])
  }

  function Finals(rs: seq<Received>): nat
  {
    if rs == [] then 0
    else Finals(rs[..|rs| - 1]) + (if rs[|rs| - 1].Chunk? && rs[|rs| - 1].bytesLeft == 0 then 1 else 0)
  }

  /** Without errors nothing is lost or reordered: the messages followed by
      the pending text are the fragments' texts joined. */
  lemma {:induction false} ReassemblyKeepsText(rs: seq<Received>)
    requires forall i :: 0 <= i < |rs| ==> !rs[i].Failed?
    ensures Reassemble(rs).error.None?
    ensures Concat(Reassemble(rs).messages) + Reassemble(rs).pending == Concat(ChunkText(rs))
  {
    if rs != [] {
      var init := rs[..|rs| - 1];
      assert forall i :: 0 <= i < |init| ==> init[i] == rs[i];
      ReassemblyKeepsText(init);
      var r := Reassemble(init);
      var last := rs[|rs| - 1];
      if last.Chunk? {
        var c := CText(last.data);
        assert ChunkText(rs) == ChunkText(init) + [c];
        ConcatSnoc(ChunkText(init), c);
        JoinChunk(r.messages, r.pending, c);
        if last.bytesLeft == 0 {
          assert Reassemble(rs) == Reassembly(r.messages + [r.pending + c], "", None);
        } else {
          assert Reassemble(rs) == Reassembly(r.messages, r.pending + c, None);
        }
      } else {
        assert Reassemble(rs) == r;
        assert ChunkText(rs) == ChunkText(init);
      }
    }
  }

  /** ... and one message is handed on per final fragment. */
  lemma {:induction false} ReassemblyCount(rs: seq<Received>)
    requires forall i :: 0 <= i < |rs| ==> !rs[i].Failed?
    ensures Reassemble(rs).error.None?
    ensures |Reassemble(rs).messages| == Finals(rs)
  {
    if rs != [] {
      var init := rs[..|rs| - 1];
      assert forall i :: 0 <= i < |init| ==> init[i] == rs[i];
      ReassemblyCount(init);
    }
  }

  /** A fragment joins the pending text, which may then close a message. */
  lemma JoinChunk(messages: seq<string>, pending: string, c: string)
    ensures Concat(messages + [pending + c]) + "" == (Concat(messages) + pending) + c
    ensures Concat(messages) + (pending + c) == (Concat(messages) + pending) + c
  {
    ConcatSnoc(messages, pending + c);
  }

  lemma ConcatSnoc(ss: seq<string>, s: string)
    ensures Concat(ss + [s]) == Concat(ss) + s
  {
    assert (ss + [s])[..|ss|] == ss;
  }
}

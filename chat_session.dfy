/** The `ChzzkChat` session (include/chzzkpp/ChzzkChat.h, src/ChzzkChat.cpp):
    its options, connection flags, handler table and counters, updated in
    place by its methods. The websocket itself is not modelled: every frame
    the session sends is appended to `sent` as a document, every handler
    invocation to `calls`, and the outcome of the handshake is a parameter.
    The two background loops are modelled one tick at a time. */
module ChatSession {
  import opened Wrappers
  import opened JsonModel
  import opened ApiPaths
  import opened ChatProtocol
  import opened ChatPayload
  import opened ChatDispatch
  import ApiClient

  /** What the session asks of the metadata client: the chat channel id of a
      channel's live status, whether keys are set, the user id hash, and the
      access token for a chat channel. Each request can throw, as the
      client's calls do. */
  datatype Backend = Backend(
    liveChatChannelId: string -> Result<string, ApiClient.ClientError>,
    hasAuth: bool,
    userIdHash: Result<string, ApiClient.ClientError>,
    accessToken: string -> Result<string, ApiClient.ClientError>)

  /** The exceptions the session's operations throw. */
  datatype ChatError =
    | NoChatChannel                  // connect: still no chat channel id after the lookup
    | AlreadyConnected               // _connect on a connected session
    | TransportFailed(reason: string) // the handshake failed, with the library's text
    | NotConnected                   // close, requestRecentChat, sendChat
    | NotLoggedIn                    // sendChat without a user id hash
    | JsonFailed(error: JsonError)   // a JSON library exception inside onMessage
    | ClientFailed(clientError: ApiClient.ClientError) // a metadata request inside connect or the polling loop

  /** One `call`: the delivery and the handlers registered for its category
      at that moment, each of which receives the payload in id order. */
  datatype Call<H> = Call(delivery: Delivery, recipients: map<nat, H>)

  /** The handlers of a category; a category never touched has none. */
  function Recipients<H>(handlers: map<ChatEvent, map<nat, H>>, e: ChatEvent): map<nat, H>
  {
    if e in handlers then handlers[e] else map[]
  }

  /** The calls made for a sequence of deliveries under a fixed table. */
  function CallsOf<H>(ds: seq<Delivery>, handlers: map<ChatEvent, map<nat, H>>): (r: seq<Call<H>>)
    ensures |r| == |ds|
  {
    if ds == [] then []
    else CallsOf(ds[..|ds| - 1], handlers) + [Call(ds[|ds| - 1], Recipients(handlers, ds[|ds| - 1].event))]
  }

  lemma CallsOfSnoc<H>(ds: seq<Delivery>, d: Delivery, handlers: map<ChatEvent, map<nat, H>>)
    ensures CallsOf(ds + [d], handlers) == CallsOf(ds, handlers) + [Call(d, Recipients(handlers, d.event))]
  {
    assert (ds + [d])[..|ds|] == ds;
  }

  lemma {:induction false} CallsOfAppend<H>(a: seq<Delivery>, b: seq<Delivery>, handlers: map<ChatEvent, map<nat, H>>)
    ensures CallsOf(a + b, handlers) == CallsOf(a, handlers) + CallsOf(b, handlers)
  {
    if b == [] {
      assert a + b == a;
    } else {
      var init := b[..|b| - 1];
      var d := b[|b| - 1];
      assert b == init + [d];
      assert a + b == (a + init) + [d];
      CallsOfAppend(a, init, handlers);
      CallsOfSnoc(a + init, d, handlers);
      CallsOfSnoc(init, d, handlers);
    }
  }

  lemma ConcatAssoc<T>(a: seq<T>, b: seq<T>, c: seq<T>)
    ensures a + b + c == a + (b + c)
  {
  }

  /** The calls of a chat-family message: those of the notice's turn, then,
      unless it failed, those of the entry loop. */
  lemma ChatTraceCalls<H>(body: Json, isRecent: bool, codec: TextCodec, handlers: map<ChatEvent, map<nat, H>>)
    ensures var n := NoticeTrace(NoticeOf(body), isRecent, codec);
      var e := EntryTrace(EntriesOf(body), isRecent, codec);
      var t := ChatTrace(body, isRecent, codec);
      && (n.failure.Some? ==> CallsOf(t.deliveries, handlers) == [] && t.failure == n.failure)
      && (n.failure.None? ==>
            && t.failure == e.failure
            && CallsOf(t.deliveries, handlers) == CallsOf(n.deliveries, handlers) + CallsOf(e.deliveries, handlers))
  {
    var n := NoticeTrace(NoticeOf(body), isRecent, codec);
    var e := EntryTrace(EntriesOf(body), isRecent, codec);
    if IsEmpty(NoticeOf(body)) {
      assert [] + e.deliveries == e.deliveries;
    }
    CallsOfAppend(n.deliveries, e.deliveries, handlers);
  }

  /** The chat channel id `connect` works with: looked up from the channel id
      when only that is known, by a request that can throw. */
  function ResolvedChannel(options: ChatOptions, backend: Backend): Result<string, ApiClient.ClientError>
  {
    if options.channelId != "" && options.chatChannelId == "" then backend.liveChatChannelId(options.channelId)
    else Success(options.chatChannelId)
  }

  /** The user id hash `connect` takes when it fetches a token: empty without
      keys, otherwise the user record's, whose request can throw. */
  function UserIdOf(backend: Backend): Result<string, ApiClient.ClientError>
  {
    if backend.hasAuth then backend.userIdHash else Success("")
  }

  /** How the part of `connect` before the handshake ends: the lookup's
      exception, no chat channel id, the user's or the token's exception, or
      ready for the handshake. */
  function PrepareOutcome(options: ChatOptions, backend: Backend): Outcome<ChatError>
  {
    match ResolvedChannel(options, backend)
    case Failure(e) => Fail(ClientFailed(e))
    case Success(c) =>
      if c == "" then Fail(NoChatChannel)
      else if options.accessToken != "" then Pass
      else if UserIdOf(backend).Failure? then Fail(ClientFailed(UserIdOf(backend).error))
      else if backend.accessToken(c).Failure? then Fail(ClientFailed(backend.accessToken(c).error))
      else Pass
  }

  /** Handler ids below `n` that are all taken number at least `n`. */
  lemma {:induction false} IdsBelow(ids: set<nat>, n: nat)
    requires forall i :: 0 <= i < n ==> i in ids
    ensures n <= |ids|
  {
    if n > 0 {
      var rest := ids - {n - 1};
      forall i | 0 <= i < n - 1 ensures i in rest {
        assert i in ids;
      }
      IdsBelow(rest, n - 1);
      assert ids == rest + {n - 1};
    }
  }

  class Chat<Handler> {
    /** The JSON library's text parser and serialiser. */
    const codec: TextCodec
    var options: ChatOptions
    var timeout: int
    var sid: string
    var uid: string
    var connected: bool
    var reconnecting: bool
    /** The websocket address the next handshake goes to. */
    var wsPath: string
    /** `_default`: the members merged into every outbound command. */
    var defaults: Json
    var isPolling: bool
    var isPinging: bool
    /** The counter of the polling loop. */
    var pollCount: int
    /** The counter of the keep-alive loop. */
    var pingCount: int
    var handlers: map<ChatEvent, map<nat, Handler>>
    /** Every frame sent on the socket, oldest first. */
    var sent: seq<Json>
    /** Every handler invocation, oldest first. */
    var calls: seq<Call<Handler>>

    /** The keep-alive counter stays a multiple of 10 below `PING_TIME`. */
    predicate Counters()
      reads this
    {
      0 <= pingCount < PingTime && pingCount % 10 == 0
    }

    /** A connected session has a chat channel id, and `_default` names it. */
    predicate Valid()
      reads this
    {
      && Counters()
      && (connected ==> options.chatChannelId != "" && defaults == DefaultFields(options.chatChannelId))
    }

    function HandlersOf(e: ChatEvent): map<nat, Handler>
      reads this`handlers
    {
      Recipients(handlers, e)
    }

    constructor (codec: TextCodec, options: ChatOptions, timeout: int)
      ensures Valid()
      ensures this.codec == codec && this.options == options && this.timeout == timeout
      ensures sid == "" && uid == "" && !connected && !reconnecting && !isPolling && !isPinging
      ensures handlers == map[] && sent == [] && calls == []
    {
      this.codec := codec;
      this.options := options;
      this.timeout := timeout;
      sid, uid := "", "";
      connected, reconnecting := false, false;
      wsPath := "";
      defaults := Null;
      isPolling, isPinging := false, false;
      pollCount, pingCount := 0, 0;
      handlers := map[];
      sent, calls := [], [];
    }

    /** `addHandler`: the handler gets the smallest id not in use for its
        category; nothing else changes. */
    method AddHandler(e: ChatEvent, h: Handler) returns (id: nat)
      modifies this`handlers
      ensures id !in old(HandlersOf(e))
      ensures forall i :: 0 <= i < id ==> i in old(HandlersOf(e))
      ensures handlers == old(handlers)[e := old(HandlersOf(e))[id := h]]
    {
      var registered := HandlersOf(e);
      id := 0;
      while id in registered
        invariant forall i :: 0 <= i < id ==> i in registered
        invariant handlers == old(handlers)
        decreases |registered.Keys| - id
      {
        IdsBelow(registered.Keys, id + 1);
        id := id + 1;
      }
      handlers := handlers[e := registered[id := h]];
    }

    /** `removeHandler`: the id is gone from its category, whether or not it
        was there. */
    method RemoveHandler(e: ChatEvent, id: nat)
      modifies this`handlers
      ensures handlers == old(handlers)[e := old(HandlersOf(e)) - {id}]
      ensures id !in HandlersOf(e)
    {
      handlers := handlers[e := HandlersOf(e) - {id}];
    }

    /** `removeHandlers`: the category is left with no handler. */
    method RemoveHandlers(e: ChatEvent)
      modifies this`handlers
      ensures handlers == old(handlers)[e := map[]]
    {
      handlers := handlers[e := map[]];
    }

    /** `removeAllHandlers`: every category is cleared, none is added. */
    method RemoveAllHandlers()
      modifies this`handlers
      ensures handlers.Keys == old(handlers).Keys
      ensures forall e :: HandlersOf(e) == map[]
    {
      var i := 0;
      while i < |AllEvents|
        invariant 0 <= i <= |AllEvents|
        invariant handlers.Keys == old(handlers).Keys
        invariant forall k :: 0 <= k < i && AllEvents[k] in handlers ==> handlers[AllEvents[k]] == map[]
      {
        var e := AllEvents[i];
        if e in handlers {
          handlers := handlers[e := map[]];
        }
        i := i + 1;
      }
      forall e ensures HandlersOf(e) == map[] {
        NineEvents(e);
      }
    }

    /** `call`: every handler of the category receives the payload. */
    method CallEvent(d: Delivery)
      modifies this`calls
      ensures calls == old(calls) + [Call(d, Recipients(handlers, d.event))]
    {
      calls := calls + [Call(d, HandlersOf(d.event))];
    }

    method StartPolling()
      modifies this`isPolling, this`pollCount
      ensures options.pollTime == 0 || old(isPolling) ==> isPolling == old(isPolling) && pollCount == old(pollCount)
      ensures options.pollTime != 0 && !old(isPolling) ==> isPolling && pollCount == options.pollTime
    {
      if options.pollTime == 0 || isPolling {
        return;
      }
      isPolling := true;
      pollCount := options.pollTime;
    }

    method StopPolling()
      modifies this`isPolling
      ensures !isPolling
    {
      isPolling := false;
    }

    /** `startPing`: a running keep-alive loop is replaced by a fresh one. */
    method StartPing()
      modifies this`isPinging, this`pingCount
      ensures isPinging && pingCount == 0
    {
      isPinging := true;
      pingCount := 0;
    }

    method StopPing()
      modifies this`isPinging
      ensures !isPinging
    {
      isPinging := false;
    }

    /** `onOpen`: the session is connected and sends CONNECT; polling starts
        unless this is a reconnection. */
    method OnOpen()
      modifies this`connected, this`sent, this`isPolling, this`pollCount
      ensures connected
      ensures sent == old(sent) + [ConnectFrame(options.accessToken, uid, defaults)]
      ensures !reconnecting && options.pollTime != 0 && !old(isPolling) ==> isPolling && pollCount == options.pollTime
      ensures reconnecting || options.pollTime == 0 || old(isPolling) ==> isPolling == old(isPolling) && pollCount == old(pollCount)
    {
      connected := true;
      sent := sent + [ConnectFrame(options.accessToken, uid, defaults)];
      if !reconnecting {
        StartPolling();
      }
    }

    /** `onClose`: outside a reconnection it reports DISCONNECT with the chat
        channel id, stops polling and forgets the id; it always stops the
        keep-alive and forgets the session id, the token and the user. */
    method OnClose()
      modifies this`calls, this`isPolling, this`options, this`isPinging, this`sid, this`uid, this`connected
      ensures !old(reconnecting) ==>
        && calls == old(calls) + [Call(Delivery(DisconnectEvent, Literal(old(options.chatChannelId))), old(HandlersOf(DisconnectEvent)))]
        && !isPolling
        && options == old(options).(chatChannelId := "", accessToken := "")
      ensures old(reconnecting) ==>
        && calls == old(calls)
        && isPolling == old(isPolling)
        && options == old(options).(accessToken := "")
      ensures !isPinging && sid == "" && uid == "" && !connected
    {
      if !reconnecting {
        CallEvent(Delivery(DisconnectEvent, Literal(options.chatChannelId)));
        StopPolling();
        options := options.(chatChannelId := "");
      }
      StopPing();
      sid := "";
      options := options.(accessToken := "");
      uid := "";
      connected := false;
    }

    /** `close`: it throws when not connected, else the session closes. */
    method Close() returns (r: Outcome<ChatError>)
      requires Counters()
      modifies this`calls, this`isPolling, this`options, this`isPinging, this`sid, this`uid, this`connected
      ensures Valid()
      ensures !old(connected) ==> r == Fail(NotConnected) && unchanged(this)
      ensures old(connected) ==> r == Pass && !connected && !isPinging && sid == "" && uid == ""
      ensures old(connected) && !old(reconnecting) ==>
        && calls == old(calls) + [Call(Delivery(DisconnectEvent, Literal(old(options.chatChannelId))), old(HandlersOf(DisconnectEvent)))]
        && !isPolling
        && options == old(options).(chatChannelId := "", accessToken := "")
      ensures old(connected) && old(reconnecting) ==>
        && calls == old(calls)
        && isPolling == old(isPolling)
        && options == old(options).(accessToken := "")
    {
      if !connected {
        return Fail(NotConnected);
      }
      OnClose();
      r := Pass;
    }

    /** The state the part of `connect` before the handshake leaves, from the
        options, user id hash, `_default` and socket address it started from.
        A lookup that throws changes nothing; a looked-up id is stored before
        anything else is asked. Without a token the user id hash is fetched,
        then the token, each stored as soon as its request returns, so a
        token request that throws leaves the new user id hash in place.
        `_default` and the socket address follow once a token is there. */
    predicate Prepared(backend: Backend, before: ChatOptions, uid0: string, defaults0: Json, wsPath0: string)
      reads this`options, this`uid, this`defaults, this`wsPath
    {
      var resolved := ResolvedChannel(before, backend);
      && (resolved.Failure? ==> options == before && uid == uid0 && defaults == defaults0 && wsPath == wsPath0)
      && (resolved.Success? ==>
            var c := resolved.value;
            var fetching := c != "" && before.accessToken == "";
            var user := UserIdOf(backend);
            var token := backend.accessToken(c);
            && uid == (if fetching && user.Success? then user.value else uid0)
            && options == before.(
                 chatChannelId := c,
                 accessToken := if fetching && user.Success? && token.Success? then token.value else before.accessToken)
            && (PrepareOutcome(before, backend).Pass? ==>
                  defaults == DefaultFields(c) && wsPath == ChatSocketPath(Selector(c)))
            && (PrepareOutcome(before, backend).Fail? ==> defaults == defaults0 && wsPath == wsPath0))
    }

    /** `connect`: the chat channel id is looked up when only the channel id
        is known, and without one it throws; a token (and the user id hash)
        is fetched when none is set; `_default` and the socket address are
        derived from the id; then the handshake is made, which throws on a
        connected session or a failed transfer, and otherwise opens. Any of
        the metadata requests can throw, and then no handshake is made. */
    method Connect(backend: Backend, handshake: Outcome<string>) returns (r: Outcome<ChatError>)
      requires Valid()
      modifies this`options, this`uid, this`defaults, this`wsPath, this`connected, this`sent, this`isPolling, this`pollCount
      ensures Valid()
      ensures Prepared(backend, old(options), old(uid), old(defaults), old(wsPath))
      ensures PrepareOutcome(old(options), backend).Fail? ==>
        && r == PrepareOutcome(old(options), backend)
        && connected == old(connected) && sent == old(sent)
      ensures PrepareOutcome(old(options), backend).Pass? && old(connected) ==>
        r == Fail(AlreadyConnected) && connected && sent == old(sent)
      ensures PrepareOutcome(old(options), backend).Pass? && !old(connected) && handshake.Fail? ==>
        r == Fail(TransportFailed(handshake.error)) && !connected && sent == old(sent)
      ensures PrepareOutcome(old(options), backend).Pass? && !old(connected) && handshake.Pass? ==>
        && r == Pass && connected
        && sent == old(sent) + [ConnectFrame(options.accessToken, uid, DefaultFields(options.chatChannelId))]
      ensures r.Pass? && !reconnecting && options.pollTime != 0 && !old(isPolling) ==>
        isPolling && pollCount == options.pollTime
      ensures !(r.Pass? && !reconnecting && options.pollTime != 0 && !old(isPolling)) ==>
        isPolling == old(isPolling) && pollCount == old(pollCount)
    {
      r := Prepare(backend);
      if r.Fail? {
        return;
      }
      r := OpenSocket(handshake);
    }

    /** The part of `connect` before the handshake. */
    method Prepare(backend: Backend) returns (r: Outcome<ChatError>)
      modifies this`options, this`uid, this`defaults, this`wsPath
      ensures r == PrepareOutcome(old(options), backend)
      ensures Prepared(backend, old(options), old(uid), old(defaults), old(wsPath))
    {
      if options.channelId != "" && options.chatChannelId == "" {
        var found := backend.liveChatChannelId(options.channelId);
        if found.Failure? {
          return Fail(ClientFailed(found.error));
        }
        options := options.(chatChannelId := found.value);
      }
      if options.chatChannelId == "" {
        return Fail(NoChatChannel);
      }
      if options.accessToken == "" {
        var user := UserIdOf(backend);
        if user.Failure? {
          return Fail(ClientFailed(user.error));
        }
        uid := user.value;
        var token := backend.accessToken(options.chatChannelId);
        if token.Failure? {
          return Fail(ClientFailed(token.error));
        }
        options := options.(accessToken := token.value);
      }
      defaults := DefaultFields(options.chatChannelId);
      var serverId := ServerId(options.chatChannelId);
      wsPath := ChatSocketPath(serverId);
      r := Pass;
    }

    /** `_connect`: it throws on a connected session and when the handshake
        fails, and otherwise opens. */
    method OpenSocket(handshake: Outcome<string>) returns (r: Outcome<ChatError>)
      modifies this`connected, this`sent, this`isPolling, this`pollCount
      ensures old(connected) ==> r == Fail(AlreadyConnected) && unchanged(this)
      ensures !old(connected) && handshake.Fail? ==> r == Fail(TransportFailed(handshake.error)) && unchanged(this)
      ensures !old(connected) && handshake.Pass? ==>
        && r == Pass && connected
        && sent == old(sent) + [ConnectFrame(options.accessToken, uid, defaults)]
      ensures r.Pass? && !reconnecting && options.pollTime != 0 && !old(isPolling) ==>
        isPolling && pollCount == options.pollTime
      ensures !(r.Pass? && !reconnecting && options.pollTime != 0 && !old(isPolling)) ==>
        isPolling == old(isPolling) && pollCount == old(pollCount)
    {
      if connected {
        return Fail(AlreadyConnected);
      }
      if handshake.Fail? {
        return Fail(TransportFailed(handshake.error));
      }
      OnOpen();
      r := Pass;
    }

    /** The state `reconnect` leaves on a connected session, from the options
        `base` it reconnects with and the state before the close: the
        keep-alive is stopped and the session id forgotten, without stopping
        the polling (the caller states that no DISCONNECT is reported); then
        `connect` runs on the chat channel of `base` with no token, so the user id hash and the
        token are fetched again (a request that throws leaves the session
        closed and the user id hash as far as it got), and once both are
        there the handshake is made. */
    predicate Reconnected(
      backend: Backend, handshake: Outcome<string>, r: Outcome<ChatError>, base: ChatOptions,
      sent0: seq<Json>, defaults0: Json, wsPath0: string, polling0: bool)
      reads this`reconnecting, this`isPolling, this`isPinging, this`sid, this`uid, this`options,
        this`connected, this`defaults, this`wsPath, this`sent
    {
      var c := base.chatChannelId;
      var user := UserIdOf(backend);
      var token := backend.accessToken(c);
      && reconnecting && isPolling == polling0 && !isPinging && sid == ""
      && uid == (if user.Success? then user.value else "")
      && options == base.(accessToken := if user.Success? && token.Success? then token.value else "")
      && (user.Failure? ==> r == Fail(ClientFailed(user.error)))
      && (user.Success? && token.Failure? ==> r == Fail(ClientFailed(token.error)))
      && (user.Failure? || token.Failure? ==>
            !connected && sent == sent0 && defaults == defaults0 && wsPath == wsPath0)
      && (user.Success? && token.Success? ==>
            && defaults == DefaultFields(c) && wsPath == ChatSocketPath(Selector(c))
            && (handshake.Pass? ==>
                  r == Pass && connected && sent == sent0 + [ConnectFrame(token.value, user.value, DefaultFields(c))])
            && (handshake.Fail? ==> r == Fail(TransportFailed(handshake.error)) && !connected && sent == sent0))
    }

    /** `reconnect`: a connected session closes without reporting DISCONNECT
        and without stopping the polling, and connects again to the same
        chat channel with a freshly fetched token. On a closed session only
        the flag is set. */
    method Reconnect(backend: Backend, handshake: Outcome<string>) returns (r: Outcome<ChatError>)
      requires Counters() && (connected ==> options.chatChannelId != "")
      modifies this`reconnecting, this`calls, this`isPolling, this`options, this`isPinging, this`sid, this`uid,
        this`connected, this`defaults, this`wsPath, this`sent, this`pollCount
      ensures Valid()
      ensures pollCount == old(pollCount)
      ensures !old(connected) ==>
        && r == Pass && reconnecting && !connected
        && options == old(options) && uid == old(uid) && sid == old(sid)
        && calls == old(calls) && sent == old(sent) && defaults == old(defaults) && wsPath == old(wsPath)
        && isPolling == old(isPolling) && isPinging == old(isPinging)
      ensures old(connected) ==>
        && calls == old(calls)
        && Reconnected(backend, handshake, r, old(options), old(sent), old(defaults), old(wsPath), old(isPolling))
    {
      reconnecting := true;
      if !connected {
        return Pass;
      }
      ghost var before := options;
      var _ := Close();
      assert options == before.(accessToken := "") && calls == old(calls) && !connected && uid == "";
      assert ResolvedChannel(options, backend) == Success(before.chatChannelId);
      r := Connect(backend, handshake);
    }

    /** `onMessage`: the frame is decoded and dispatched as `React` says;
        every command but PONG then restarts the keep-alive loop. A JSON
        exception ends the handling where it is thrown. */
    method OnMessage(message: string) returns (r: Outcome<ChatError>)
      requires Valid()
      modifies this`sid, this`reconnecting, this`calls, this`sent, this`isPinging, this`pingCount
      ensures Valid()
      ensures DecodeFrame(codec, message).Failure? ==>
        && r == Fail(JsonFailed(DecodeFrame(codec, message).error))
        && unchanged(this)
      ensures DecodeFrame(codec, message) == Success(None) ==> r == Pass && unchanged(this)
      ensures DecodeFrame(codec, message).Success? && DecodeFrame(codec, message).value.Some? ==>
        var inbound := DecodeFrame(codec, message).value.value;
        var x := React(inbound, codec, old(reconnecting), old(options.chatChannelId));
        && calls == old(calls) + CallsOf(x.deliveries, old(handlers))
        && sent == old(sent) + x.replies
        && sid == (if x.sid.Some? then x.sid.value else old(sid))
        && reconnecting == (old(reconnecting) && x.sid.None?)
        && r == (if x.failure.Some? then Fail(JsonFailed(x.failure.value)) else Pass)
        && (x.failure.None? && inbound.code != Code(Pong) ==> isPinging && pingCount == 0)
        && ((x.failure.Some? || inbound.code == Code(Pong)) ==>
              (isPinging == old(isPinging) && pingCount == old(pingCount)))
    {
      var frame := DecodeFrame(codec, message);
      if frame.Failure? {
        return Fail(JsonFailed(frame.error));
      }
      if frame.value.None? {
        return Pass;
      }
      var inbound := frame.value.value;
      var failure := Handle(inbound);
      if failure.Some? {
        return Fail(JsonFailed(failure.value));
      }
      if inbound.code != Code(Pong) {
        StartPing();
      }
      r := Pass;
    }

    /** The `switch (cmd)` of `onMessage`. */
    method Handle(inbound: Inbound) returns (failure: Option<JsonError>)
      modifies this`sid, this`reconnecting, this`calls, this`sent
      ensures var x := React(inbound, codec, old(reconnecting), old(options.chatChannelId));
        && calls == old(calls) + CallsOf(x.deliveries, old(handlers))
        && sent == old(sent) + x.replies
        && sid == (if x.sid.Some? then x.sid.value else old(sid))
        && reconnecting == (old(reconnecting) && x.sid.None?)
        && failure == x.failure
    {
      var command := CommandOf(inbound.code);
      if command == Some(Connected) {
        failure := HandleConnected(inbound);
      } else if command == Some(Ping) {
        failure := HandlePing(inbound);
      } else if command == Some(Chat) || command == Some(RecentChat) || command == Some(Donation) {
        failure := HandleChats(inbound);
      } else if command == Some(Notice) {
        failure := HandleNotice(inbound);
      } else if command == Some(Blind) {
        failure := HandleBlind(inbound);
      } else {
        ReactIgnores(inbound, codec, reconnecting, options.chatChannelId);
        failure := None;
      }
    }

    /** CONNECTED: the session id is taken and CONNECT or RECONNECT reported. */
    method HandleConnected(inbound: Inbound) returns (failure: Option<JsonError>)
      requires CommandOf(inbound.code) == Some(Connected)
      modifies this`sid, this`reconnecting, this`calls, this`sent
      ensures var x := React(inbound, codec, old(reconnecting), old(options.chatChannelId));
        && calls == old(calls) + CallsOf(x.deliveries, old(handlers))
        && sent == old(sent) + x.replies
        && sid == (if x.sid.Some? then x.sid.value else old(sid))
        && reconnecting == (old(reconnecting) && x.sid.None?)
        && failure == x.failure
    {
      var id := SessionId(inbound.body);
      if id.Failure? {
        return Some(id.error);
      }
      sid := id.value;
      var d;
      if reconnecting {
        d := Delivery(ReconnectEvent, Literal(options.chatChannelId));
        CallEvent(d);
        reconnecting := false;
      } else {
        d := Delivery(ConnectEvent, Literal(""));
        CallEvent(d);
      }
      CallsOfSnoc([], d, handlers);
      failure := None;
    }

    /** PING: answered with PONG. */
    method HandlePing(inbound: Inbound) returns (failure: Option<JsonError>)
      requires CommandOf(inbound.code) == Some(Ping)
      modifies this`sid, this`reconnecting, this`calls, this`sent
      ensures var x := React(inbound, codec, old(reconnecting), old(options.chatChannelId));
        && calls == old(calls) + CallsOf(x.deliveries, old(handlers))
        && sent == old(sent) + x.replies
        && sid == (if x.sid.Some? then x.sid.value else old(sid))
        && reconnecting == (old(reconnecting) && x.sid.None?)
        && failure == x.failure
    {
      sent := sent + [PongFrame];
      failure := None;
    }

    method HandleChats(inbound: Inbound) returns (failure: Option<JsonError>)
      requires CommandOf(inbound.code) in {Some(Chat), Some(RecentChat), Some(Donation)}
      modifies this`sid, this`reconnecting, this`calls, this`sent
      ensures var x := React(inbound, codec, old(reconnecting), old(options.chatChannelId));
        && calls == old(calls) + CallsOf(x.deliveries, old(handlers))
        && sent == old(sent) + x.replies
        && sid == (if x.sid.Some? then x.sid.value else old(sid))
        && reconnecting == (old(reconnecting) && x.sid.None?)
        && failure == x.failure
    {
      var isRecent := inbound.code == Code(RecentChat);
      assert React(inbound, codec, reconnecting, options.chatChannelId) == ChatReaction(inbound.body, isRecent, codec);
      ghost var h := handlers;
      failure := DeliverChats(inbound.body, isRecent);
      ChatTraceCalls(inbound.body, isRecent, codec, h);
      ConcatAssoc(old(calls), CallsOf(NoticeTrace(NoticeOf(inbound.body), isRecent, codec).deliveries, h),
                  CallsOf(EntryTrace(EntriesOf(inbound.body), isRecent, codec).deliveries, h));
    }

    method HandleNotice(inbound: Inbound) returns (failure: Option<JsonError>)
      requires CommandOf(inbound.code) == Some(Notice)
      modifies this`sid, this`reconnecting, this`calls, this`sent
      ensures var x := React(inbound, codec, old(reconnecting), old(options.chatChannelId));
        && calls == old(calls) + CallsOf(x.deliveries, old(handlers))
        && sent == old(sent) + x.replies
        && sid == (if x.sid.Some? then x.sid.value else old(sid))
        && reconnecting == (old(reconnecting) && x.sid.None?)
        && failure == x.failure
    {
      var notice := NoticeDelivery(inbound.body, codec);
      if notice.Failure? {
        return Some(notice.error);
      }
      CallEvent(notice.value);
      CallsOfSnoc([], notice.value, handlers);
      failure := None;
    }

    method HandleBlind(inbound: Inbound) returns (failure: Option<JsonError>)
      requires CommandOf(inbound.code) == Some(Blind)
      modifies this`sid, this`reconnecting, this`calls, this`sent
      ensures var x := React(inbound, codec, old(reconnecting), old(options.chatChannelId));
        && calls == old(calls) + CallsOf(x.deliveries, old(handlers))
        && sent == old(sent) + x.replies
        && sid == (if x.sid.Some? then x.sid.value else old(sid))
        && reconnecting == (old(reconnecting) && x.sid.None?)
        && failure == x.failure
    {
      var d := BlindDelivery(inbound.body);
      CallEvent(d);
      CallsOfSnoc([], d, handlers);
      failure := None;
    }

    /** The chat-family branch of `onMessage`: the notice first when there is
        one, then the entries. */
    method DeliverChats(body: Json, isRecent: bool) returns (failure: Option<JsonError>)
      modifies this`calls
      ensures var n := NoticeTrace(NoticeOf(body), isRecent, codec);
        var e := EntryTrace(EntriesOf(body), isRecent, codec);
        && (n.failure.Some? ==> calls == old(calls) && failure == n.failure)
        && (n.failure.None? ==>
              && failure == e.failure
              && calls == old(calls) + CallsOf(n.deliveries, old(handlers)) + CallsOf(e.deliveries, old(handlers)))
    {
      ghost var h := handlers;
      ghost var n := NoticeTrace(NoticeOf(body), isRecent, codec);
      ghost var t := EntryTrace(EntriesOf(body), isRecent, codec);
      failure := DeliverNotice(NoticeOf(body), isRecent);
      if failure.Some? {
        return;
      }
      ghost var noticed := calls;
      assert noticed == old(calls) + CallsOf(n.deliveries, h);
      failure := DeliverEntries(EntriesOf(body), isRecent);
    }

    /** The notice's turn: a non-empty notice is normalised and called as
        NOTICE. */
    method DeliverNotice(notice: Json, isRecent: bool) returns (failure: Option<JsonError>)
      modifies this`calls
      ensures var t := NoticeTrace(notice, isRecent, codec);
        calls == old(calls) + CallsOf(t.deliveries, old(handlers)) && failure == t.failure
    {
      failure := None;
      if IsEmpty(notice) {
        return;
      }
      var doc := ParseChat(notice, isRecent, codec);
      if doc.Failure? {
        return Some(doc.error);
      }
      var d := Delivery(NoticeEvent, Dumped(doc.value));
      CallEvent(d);
      CallsOfSnoc([], d, handlers);
    }

    /** The entry loop: each entry in turn (`EntryStep`), stopping at the
        first that throws. */
    method DeliverEntries(entries: seq<Json>, isRecent: bool) returns (failure: Option<JsonError>)
      modifies this`calls
      ensures var t := EntryTrace(entries, isRecent, codec);
        calls == old(calls) + CallsOf(t.deliveries, old(handlers)) && failure == t.failure
    {
      ghost var steps := Steps(entries, isRecent, codec);
      var i := 0;
      while i < |entries|
        invariant 0 <= i <= |entries|
        invariant Run(steps[..i]).failure.None?
        invariant calls == old(calls) + CallsOf(Run(steps[..i]).deliveries, handlers)
      {
        ghost var done := Run(steps[..i]);
        var step := EntryStep(entries[i], isRecent, codec);
        assert step == steps[i];
        RunNext(steps, i);
        if step.Failure? {
          RunStops(steps, i + 1);
          return Some(step.error);
        }
        match step.value {
          case Some(d) =>
            ghost var before := CallsOf(done.deliveries, handlers);
            var c := Call(d, Recipients(handlers, d.event));
            CallEvent(d);
            assert calls == (old(calls) + before) + [c];
            assert calls == old(calls) + (before + [c]);
            CallsOfSnoc(done.deliveries, d, handlers);
            assert Run(steps[..i + 1]).deliveries == done.deliveries + [d];
          case None =>
            assert Run(steps[..i + 1]).deliveries == done.deliveries;
        }
        i := i + 1;
      }
      assert steps[..i] == steps;
      failure := None;
    }

    /** `requestRecentChat`: it throws when not connected, else it sends
        REQUEST_RECENT_CHAT for `count` messages on this session's channel. */
    method RequestRecentChat(count: int) returns (r: Outcome<ChatError>)
      requires Valid()
      modifies this`sent
      ensures !connected ==> r == Fail(NotConnected) && sent == old(sent)
      ensures connected ==> r == Pass && sent == old(sent) + [RecentChatFrame(count, sid, defaults)]
      ensures connected ==>
        var f := sent[|sent| - 1];
        && Get(f, "cmd") == Number(Code(ChatCommand.RequestRecentChat))
        && Get(f, "cid") == Str(options.chatChannelId) && Get(f, "sid") == Str(sid)
        && Get(Get(f, "bdy"), "recentMessageCount") == Number(count)
    {
      if !connected {
        return Fail(NotConnected);
      }
      sent := sent + [RecentChatFrame(count, sid, defaults)];
      RecentChatFrameFields(count, sid, options.chatChannelId);
      r := Pass;
    }

    /** `sendChat`: it throws when not connected or not logged in; otherwise
        it gathers the emoji object, dumps the extras and sends SEND_CHAT
        with the time `now` (in milliseconds). */
    method SendChat(message: string, emojis: seq<(string, string)>, now: int) returns (r: Outcome<ChatError>)
      requires Valid()
      modifies this`sent
      ensures !connected ==> r == Fail(NotConnected) && sent == old(sent)
      ensures connected && uid == "" ==> r == Fail(NotLoggedIn) && sent == old(sent)
      ensures connected && uid != "" ==>
        var extras := codec.dump(SendExtras(EmojiObject(emojis), options.chatChannelId));
        && r == Pass
        && sent == old(sent) + [SendChatFrame(message, extras, now, sid, defaults)]
        && Get(sent[|sent| - 1], "cid") == Str(options.chatChannelId)
        && Get(sent[|sent| - 1], "sid") == Str(sid)
        && Get(Get(sent[|sent| - 1], "bdy"), "msg") == Str(message)
    {
      if !connected {
        return Fail(NotConnected);
      }
      if uid == "" {
        return Fail(NotLoggedIn);
      }
      var emojiJson := Null;
      for i := 0 to |emojis|
        invariant emojiJson == EmojiObject(emojis[..i])
      {
        assert emojis[..i + 1][..i] == emojis[..i];
        emojiJson := Set(emojiJson, emojis[i].0, Str(emojis[i].1));
      }
      assert emojis[..|emojis|] == emojis;
      var extras := SendExtras(emojiJson, options.chatChannelId);
      var frame := SendChatFrame(message, codec.dump(extras), now, sid, defaults);
      SendChatFrameFields(message, codec.dump(extras), now, sid, options.chatChannelId);
      SendChatBodyFields(message, codec.dump(extras), now);
      sent := sent + [frame];
      r := Pass;
    }

    /** One 10 ms turn of `sendPing` while connected and pinging. */
    method PingTick()
      requires Valid()
      modifies this`pingCount, this`sent
      ensures Valid()
      ensures !(old(connected) && old(isPinging)) ==> pingCount == old(pingCount) && sent == old(sent)
      ensures old(connected) && old(isPinging) ==>
        && pingCount == PingStep(old(pingCount)).0
        && sent == old(sent) + (if PingStep(old(pingCount)).1 then [PingFrame] else [])
    {
      if !(connected && isPinging) {
        return;
      }
      var (next, fire) := PingStep(pingCount);
      pingCount := next;
      if fire {
        sent := sent + [PingFrame];
      }
    }

    /** One 10 ms turn of `updateChatChannelID` while connected and polling:
        when the counter is due, the live status is asked for the chat
        channel id, and a different non-empty one replaces the current id and
        the session reconnects to it. A failed reconnection, or a live status
        request that throws, ends the loop before the counter is reset. */
    method PollTick(backend: Backend, handshake: Outcome<string>) returns (r: Outcome<ChatError>)
      requires Valid()
      modifies this`reconnecting, this`calls, this`isPolling, this`options, this`isPinging, this`sid, this`uid,
        this`connected, this`defaults, this`wsPath, this`sent, this`pollCount
      ensures Valid()
      ensures !(old(connected) && old(isPolling)) ==> r == Pass && unchanged(this)
      ensures old(connected) && old(isPolling) ==>
        var step := PollStep(old(pollCount), old(options.pollTime));
        var found := backend.liveChatChannelId(old(options.channelId));
        && (step.1 && found.Failure? ==> r == Fail(ClientFailed(found.error)) && unchanged(this))
        && (!step.1 || (found.Success? && (found.value == "" || found.value == old(options.chatChannelId))) ==>
              && r == Pass && pollCount == step.0
              && options == old(options) && uid == old(uid) && sid == old(sid)
              && connected && reconnecting == old(reconnecting) && isPolling && isPinging == old(isPinging)
              && defaults == old(defaults) && wsPath == old(wsPath) && sent == old(sent) && calls == old(calls))
        && (step.1 && found.Success? && found.value != "" && found.value != old(options.chatChannelId) ==>
              && calls == old(calls)
              && Reconnected(backend, handshake, r, old(options).(chatChannelId := found.value),
                             old(sent), old(defaults), old(wsPath), old(isPolling))
              && pollCount == (if r.Pass? then step.0 else old(pollCount)))
    {
      if !(connected && isPolling) {
        return Pass;
      }
      var (next, due) := PollStep(pollCount, options.pollTime);
      if due {
        var found := backend.liveChatChannelId(options.channelId);
        if found.Failure? {
          return Fail(ClientFailed(found.error));
        }
        if found.value != "" && found.value != options.chatChannelId {
          options := options.(chatChannelId := found.value);
          r := Reconnect(backend, handshake);
          if r.Fail? {
            return;
          }
        }
      }
      pollCount := next;
      r := Pass;
    }

    method SetConnectionTimeout(t: int)
      modifies this`timeout
      ensures timeout == t
    {
      timeout := t;
    }

    method GetConnectionTimeout() returns (t: int)
      ensures t == timeout
    {
      t := timeout;
    }

    method IsConnected() returns (b: bool)
      ensures b == connected
    {
      b := connected;
    }

    method CurrentOptions() returns (o: ChatOptions)
      ensures o == options
    {
      o := options;
    }
  }
}

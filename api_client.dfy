/** `ChzzkClient` (src/ChzzkClient.cpp): the API envelope check and the
    assembly of typed results from the responses its `Core` fetches. */
module ApiClient {
  import opened Wrappers
  import opened JsonModel
  import opened UrlEncoding
  import opened ApiPaths
  import opened ApiTypes
  import opened ApiParse
  import opened ApiCore

  datatype ClientError =
    | CoreFailed(coreError: CoreError)
    | InvalidStatus(code: int, message: string)  // `invalid_status_exception`
    | JsonFailed(jsonError: JsonError)

  function Lift<T>(r: Result<T, JsonError>): (l: Result<T, ClientError>)
    ensures l.Success? <==> r.Success?
    ensures r.Success? ==> l.value == r.value
    ensures r.Failure? ==> l.error == JsonFailed(r.error)
  {
    match r
    case Success(v) => Success(v)
    case Failure(e) => Failure(JsonFailed(e))
  }

  /** `int code = json["code"]`. */
  function StatusCode(doc: Json): Result<int, JsonError>
  {
    var code :- Slot(doc, "code");
    ToInt(code)
  }

  /** `getContent`: a body that is not JSON gives null; otherwise the `content`
      member when the status code is 200, and an invalid-status error carrying
      the code and the `message` member for any other code. */
  function GetContent(codec: TextCodec, data: string): (r: Result<Json, ClientError>)
    ensures codec.parse(data).None? ==> r == Success(Null)
    ensures codec.parse(data).Some? ==> var doc := codec.parse(data).value;
      && (r.Success? <==> StatusCode(doc) == Success(200))
      && (r.Success? ==> r.value == Get(doc, "content"))
      && (StatusCode(doc).Failure? ==> r.Failure? && r.error.JsonFailed?)
      && (StatusCode(doc).Success? && StatusCode(doc).value != 200 ==>
            (r.Failure? && (r.error.InvalidStatus? <==> Get(doc, "message").Str?)
             && (r.error.InvalidStatus? ==> r.error == InvalidStatus(StatusCode(doc).value, Get(doc, "message").s))))
  {
    match codec.parse(data)
    case None => Success(Null)
    case Some(doc) =>
      var code :- Lift(StatusCode(doc));
      // Reading `code` has shown `doc` to be an object (or null), so the
      // later lookups cannot throw.
      if code == 200 then Success(Get(doc, "content"))
      else
        var message :- Lift(ToText(Get(doc, "message")));
        Failure(InvalidStatus(code, message))
  }

  /** A record endpoint: the checked content handed to the record's parse. */
  function Fetch<T>(codec: TextCodec, data: string, parse: Json -> Result<T, JsonError>): (r: Result<T, ClientError>)
    ensures codec.parse(data).None? ==> r == Lift(parse(Null))
    ensures GetContent(codec, data).Failure? ==> r == Failure(GetContent(codec, data).error)
    ensures GetContent(codec, data).Success? ==> r == Lift(parse(GetContent(codec, data).value))
  {
    var content :- GetContent(codec, data);
    Lift(parse(content))
  }

  /** A body that is not JSON yields the all-default record. */
  lemma MalformedBodyGivesDefaults(codec: TextCodec, data: string)
    requires codec.parse(data).None?
    ensures Fetch(codec, data, ParseChannelInfo) == Success(DefaultChannelInfo)
    ensures Fetch(codec, data, ParseLivePollingStatus) == Success(DefaultLivePollingStatus)
  {
    ParseEmptyDefaults(Null);
  }

  /** Parsing each element in order, stopping at the first that fails. */
  function Collect<T>(xs: seq<Json>, entry: Json -> Result<T, JsonError>): (r: Result<seq<T>, JsonError>)
    ensures r.Success? <==> forall i :: 0 <= i < |xs| ==> entry(xs[i]).Success?
    ensures r.Success? ==> |r.value| == |xs|
    ensures r.Success? ==> forall i :: 0 <= i < |xs| ==> entry(xs[i]) == Success(r.value[i])
  {
    if xs == [] then Success([])
    else
      var init :- Collect(xs[..|xs| - 1], entry);
      var last :- entry(xs[|xs| - 1]);
      Success(init + [last])
  }

  /** The elements of `content["data"]` the result loops run over. */
  function DataOf(content: Json): Result<seq<Json>, JsonError>
  {
    var data :- Slot(content, "data");
    Success(Elements(data))
  }

  /** A channel search entry is the channel record under `channel`. */
  function ChannelEntry(element: Json): (r: Result<ChannelInfo, JsonError>)
    ensures r.Success? <==> (element.Object? || element.Null?) && ParseChannelInfo(Get(element, "channel")).Success?
    ensures r.Success? ==> r == ParseChannelInfo(Get(element, "channel"))
  {
    var channel :- Slot(element, "channel");
    ParseChannelInfo(channel)
  }

  /** A live search entry: the live record under `live`, its channel record
      replaced by the one under `channel`. */
  function LiveEntry(element: Json): (r: Result<Live, JsonError>)
    ensures r.Success? ==> (element.Object? || element.Null?)
    ensures r.Success? ==> ParseChannelInfo(Get(element, "channel")) == Success(r.value.info.channelInfo)
    ensures r.Success? ==> var parsed := ParseLive(Get(element, "live"));
      parsed.Success? && r.value == parsed.value.(info := parsed.value.info.(channelInfo := r.value.info.channelInfo))
  {
    var liveJson :- Slot(element, "live");
    var live :- ParseLive(liveJson);
    // The first lookup has shown `element` to be an object (or null).
    var channel :- ParseChannelInfo(Get(element, "channel"));
    Success(live.(info := live.info.(channelInfo := channel)))
  }

  /** A video search entry: the video record under `video`, its channel record
      replaced by the one under `channel`. */
  function VideoEntry(element: Json): (r: Result<VideoInfo, JsonError>)
    ensures r.Success? ==> (element.Object? || element.Null?)
    ensures r.Success? ==> ParseChannelInfo(Get(element, "channel")) == Success(r.value.channelInfo)
    ensures r.Success? ==> var parsed := ParseVideoInfo(Get(element, "video"));
      parsed.Success? && r.value == parsed.value.(channelInfo := r.value.channelInfo)
  {
    var videoJson :- Slot(element, "video");
    var video :- ParseVideoInfo(videoJson);
    // The first lookup has shown `element` to be an object (or null).
    var channel :- ParseChannelInfo(Get(element, "channel"));
    Success(video.(channelInfo := channel))
  }

  /** The list a result loop builds from a response body. */
  function ListOf<T>(codec: TextCodec, data: string, entry: Json -> Result<T, JsonError>): Result<seq<T>, ClientError>
  {
    var content :- GetContent(codec, data);
    var elements :- Lift(DataOf(content));
    Lift(Collect(elements, entry))
  }

  /** A successful list has one entry per element of `content["data"]`, in order. */
  lemma ListOfEntries<T>(codec: TextCodec, data: string, entry: Json -> Result<T, JsonError>)
    requires ListOf(codec, data, entry).Success?
    ensures GetContent(codec, data).Success?
    ensures DataOf(GetContent(codec, data).value).Success?
    ensures var elements := DataOf(GetContent(codec, data).value).value;
      var list := ListOf(codec, data, entry).value;
      |list| == |elements| && forall i :: 0 <= i < |elements| ==> entry(elements[i]) == Success(list[i])
  {
  }

  /** The loop shared by the result builders: one parsed entry appended per
      element, in order; the first entry that fails ends the call. */
  method CollectEntries<T>(elements: seq<Json>, entry: Json -> Result<T, JsonError>) returns (r: Result<seq<T>, ClientError>)
    ensures r == Lift(Collect(elements, entry))
  {
    var list: seq<T> := [];
    var i := 0;
    while i < |elements|
      invariant 0 <= i <= |elements|
      invariant Collect(elements[..i], entry) == Success(list)
    {
      assert elements[..i + 1][..i] == elements[..i];
      match entry(elements[i]) {
        case Failure(e) =>
          PrefixFailure(elements, i + 1, entry);
          return Failure(JsonFailed(e));
        case Success(v) =>
          list := list + [v];
      }
      i := i + 1;
    }
    assert elements[..i] == elements;
    return Success(list);
  }

  /** Once a prefix fails, so does the whole list, with the same error. */
  lemma {:induction false} PrefixFailure<T>(xs: seq<Json>, n: nat, entry: Json -> Result<T, JsonError>)
    requires n <= |xs|
    requires Collect(xs[..n], entry).Failure?
    ensures Collect(xs, entry) == Collect(xs[..n], entry)
    decreases |xs| - n
  {
    if n < |xs| {
      assert xs[..n + 1][..n] == xs[..n];
      PrefixFailure(xs, n + 1, entry);
      assert xs[..|xs|] == xs;
    } else {
      assert xs[..n] == xs;
    }
  }

  class Client {
    const core: Core

    constructor (core: Core)
      ensures this.core == core
    {
      this.core := core;
    }

    /** The envelope check over whatever the core's request answered. */
    method Content(raw: Result<string, CoreError>, codec: TextCodec) returns (r: Result<Json, ClientError>)
      ensures raw.Failure? ==> r == Failure(CoreFailed(raw.error))
      ensures raw.Success? ==> r == GetContent(codec, raw.value)
    {
      match raw {
        case Failure(e) => return Failure(CoreFailed(e));
        case Success(data) => return GetContent(codec, data);
      }
    }

    method GetChannel(channelId: string, transfer: Transfer, codec: TextCodec) returns (r: Result<Channel, ClientError>)
      modifies core`requests
      ensures !core.initialized ==> r == Failure(CoreFailed(NotInitialized))
      ensures core.initialized ==> r == Fetch(codec, transfer.Response(), ParseChannel)
      ensures core.initialized ==> core.requests == old(core.requests) + [HttpRequest(ChannelPath(channelId), core.timeout, core.Headers())]
    {
      var raw := core.GetChannel(channelId, transfer);
      var content :- Content(raw, codec);
      r := Lift(ParseChannel(content));
    }

    method GetLiveStatus(channelId: string, transfer: Transfer, codec: TextCodec) returns (r: Result<LiveStatus, ClientError>)
      modifies core`requests
      ensures !core.initialized ==> r == Failure(CoreFailed(NotInitialized))
      ensures core.initialized ==> r == Fetch(codec, transfer.Response(), ParseLiveStatus)
      ensures core.initialized ==> core.requests == old(core.requests) + [HttpRequest(LiveStatusPath(channelId), core.timeout, core.Headers())]
    {
      var raw := core.GetLiveStatus(channelId, transfer);
      var content :- Content(raw, codec);
      r := Lift(ParseLiveStatus(content));
    }

    method GetLiveDetail(channelId: string, transfer: Transfer, codec: TextCodec) returns (r: Result<LiveDetail, ClientError>)
      modifies core`requests
      ensures !core.initialized ==> r == Failure(CoreFailed(NotInitialized))
      ensures core.initialized ==> r == Fetch(codec, transfer.Response(), j => ParseLiveDetail(j, codec.dump))
      ensures core.initialized ==> core.requests == old(core.requests) + [HttpRequest(LiveDetailPath(channelId), core.timeout, core.Headers())]
    {
      var raw := core.GetLiveDetail(channelId, transfer);
      var content :- Content(raw, codec);
      r := Lift(ParseLiveDetail(content, codec.dump));
    }

    method GetVideo(videoNo: int, transfer: Transfer, codec: TextCodec) returns (r: Result<Video, ClientError>)
      modifies core`requests
      ensures !core.initialized ==> r == Failure(CoreFailed(NotInitialized))
      ensures core.initialized ==> r == Fetch(codec, transfer.Response(), j => ParseVideo(j, codec.dump))
      ensures core.initialized ==> core.requests == old(core.requests) + [HttpRequest(VideoPath(videoNo), core.timeout, core.Headers())]
    {
      var raw := core.GetVideo(videoNo, transfer);
      var content :- Content(raw, codec);
      r := Lift(ParseVideo(content, codec.dump));
    }

    method GetUserData(transfer: Transfer, codec: TextCodec) returns (r: Result<UserData, ClientError>)
      modifies core`requests
      ensures !core.initialized ==> r == Failure(CoreFailed(NotInitialized))
      ensures core.initialized ==> r == Fetch(codec, transfer.Response(), ParseUserData)
      ensures core.initialized ==> core.requests == old(core.requests) + [HttpRequest(UserPath, core.timeout, core.Headers())]
    {
      var raw := core.GetUserData(transfer);
      var content :- Content(raw, codec);
      r := Lift(ParseUserData(content));
    }

    method GetAccessToken(chatChannelId: string, transfer: Transfer, codec: TextCodec) returns (r: Result<AccessToken, ClientError>)
      modifies core`requests
      ensures !core.initialized ==> r == Failure(CoreFailed(NotInitialized))
      ensures core.initialized ==> r == Fetch(codec, transfer.Response(), ParseAccessToken)
      ensures core.initialized ==> (core.requests == old(core.requests) +
        [HttpRequest(AccessTokenPath(chatChannelId, DefaultChatType), core.timeout, core.Headers())])
    {
      var raw := core.GetAccessToken(chatChannelId, transfer);
      var content :- Content(raw, codec);
      r := Lift(ParseAccessToken(content));
    }

    /** `getRecommendationLives`: offset 0, the requested size and the given
        keyword (the empty one for the overload without a keyword) echoed,
        and one live per element of the response's data. The request it makes
        is not modelled: the response body is a parameter. */
    method RecommendationLives(keyword: string, size: int, data: string, codec: TextCodec)
      returns (r: Result<RecommendResult, ClientError>)
      ensures r.Success? <==> ListOf(codec, data, ParseLiveInfo).Success?
      ensures r.Success? ==> r.value == RecommendResult(Page(keyword, size, 0), ListOf(codec, data, ParseLiveInfo).value)
    {
      var content :- GetContent(codec, data);
      var elements :- Lift(DataOf(content));
      var lives :- CollectEntries(elements, ParseLiveInfo);
      return Success(RecommendResult(Page(keyword, size, 0), lives));
    }

    method SearchChannel(keyword: seq<Byte>, offset: int, size: int, withFirstChannelContent: bool,
                         transfer: Transfer, codec: TextCodec)
      returns (r: Result<ChannelResult, ClientError>)
      modifies core`requests
      ensures !core.initialized ==> r == Failure(CoreFailed(NotInitialized))
      ensures core.initialized ==> (r.Success? <==> ListOf(codec, transfer.Response(), ChannelEntry).Success?)
      ensures core.initialized && r.Success? ==>
        r.value == ChannelResult(Page(keyword, size, offset), ListOf(codec, transfer.Response(), ChannelEntry).value)
      ensures core.initialized ==> (core.requests == old(core.requests) +
        [HttpRequest(SearchChannelPath(Encoded(keyword), offset, size, withFirstChannelContent), core.timeout, core.Headers())])
    {
      var raw := core.SearchChannel(keyword, offset, size, withFirstChannelContent, transfer);
      var content :- Content(raw, codec);
      var elements :- Lift(DataOf(content));
      var channels :- CollectEntries(elements, ChannelEntry);
      return Success(ChannelResult(Page(keyword, size, offset), channels));
    }

    method SearchLive(keyword: seq<Byte>, offset: int, size: int, transfer: Transfer, codec: TextCodec)
      returns (r: Result<LiveResult, ClientError>)
      modifies core`requests
      ensures !core.initialized ==> r == Failure(CoreFailed(NotInitialized))
      ensures core.initialized ==> (r.Success? <==> ListOf(codec, transfer.Response(), LiveEntry).Success?)
      ensures core.initialized && r.Success? ==>
        r.value == LiveResult(Page(keyword, size, offset), ListOf(codec, transfer.Response(), LiveEntry).value)
      ensures core.initialized ==> (core.requests == old(core.requests) +
        [HttpRequest(SearchLivePath(Encoded(keyword), offset, size), core.timeout, core.Headers())])
    {
      var raw := core.SearchLive(keyword, offset, size, transfer);
      var content :- Content(raw, codec);
      var elements :- Lift(DataOf(content));
      var lives :- CollectEntries(elements, LiveEntry);
      return Success(LiveResult(Page(keyword, size, offset), lives));
    }

    method SearchVideo(keyword: seq<Byte>, offset: int, size: int, transfer: Transfer, codec: TextCodec)
      returns (r: Result<VideoResult, ClientError>)
      modifies core`requests
      ensures !core.initialized ==> r == Failure(CoreFailed(NotInitialized))
      ensures core.initialized ==> (r.Success? <==> ListOf(codec, transfer.Response(), VideoEntry).Success?)
      ensures core.initialized && r.Success? ==>
        r.value == VideoResult(Page(keyword, size, offset), ListOf(codec, transfer.Response(), VideoEntry).value)
      ensures core.initialized ==> (core.requests == old(core.requests) +
        [HttpRequest(SearchVideoPath(Encoded(keyword), offset, size), core.timeout, core.Headers())])
    {
      var raw := core.SearchVideo(keyword, offset, size, transfer);
      var content :- Content(raw, codec);
      var elements :- Lift(DataOf(content));
      var videos :- CollectEntries(elements, VideoEntry);
      return Success(VideoResult(Page(keyword, size, offset), videos));
    }
  }
}

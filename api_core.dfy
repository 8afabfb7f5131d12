/** `ChzzkCore` (src/ChzzkCore.cpp): the authentication keys, the timeout and
    the HTTP requests the metadata API is fetched with. The transfer itself is
    not modelled: each request is logged with the URL, timeout and headers it
    is made with, and its outcome is a parameter. */
module ApiCore {
  import opened Wrappers
  import opened UrlEncoding
  import opened ApiPaths

  /** What the transfer produced: the body the write callback gathered, or
      the library's error text for a failed transfer. */
  datatype Transfer = Completed(body: string) | TransferFailed(errorText: string) {
    /** What `request` answers with: the body, or the error text in its place. */
    function Response(): string
    {
      if Completed? then body else errorText
    }
  }

  /** One request as it is handed to the transfer. */
  datatype HttpRequest = HttpRequest(url: string, timeout: int, headers: seq<string>)

  datatype CoreError = NotInitialized

  const CookiePrefix: string := "Cookie: NID_AUT="
  const SessionLabel: string := ";NID_SES="

  function CookieHeader(auth: string, session: string): string
  {
    CookiePrefix + auth + SessionLabel + session
  }

  /** Both keys can be read back from the header when the first holds no `;`. */
  lemma CookieHeaderKeys(auth: string, session: string)
    requires ';' !in auth
    ensures var h := CookieHeader(auth, session);
      && h[..|CookiePrefix|] == CookiePrefix
      && UpTo(h[|CookiePrefix|..], ';') == auth
      && h[|h| - |session|..] == session
  {
    var h := CookieHeader(auth, session);
    var rest := "NID_SES=" + session;
    assert h == CookiePrefix + (auth + [';'] + rest);
    assert h[|CookiePrefix|..] == auth + [';'] + rest;
    UpToSeparator(auth, ';', rest);
  }

  /** `size * nmemb` in `size_t`. */
  function ChunkLength(size: nat, nmemb: nat): nat
  {
    (size * nmemb) % 0x1_0000_0000_0000_0000
  }

  /** The string a transfer writes its body into. */
  class ResponseBuffer {
    var text: string

    constructor ()
      ensures text == []
    {
      text := [];
    }

    /** `curl_write_string_callback`: it appends `size * nmemb` bytes and
        reports that count, or reports 0 and leaves the string as it was when
        the append cannot allocate. */
    method Write(contents: seq<Byte>, size: nat, nmemb: nat, allocates: bool) returns (written: nat)
      requires ChunkLength(size, nmemb) <= |contents|
      modifies this
      ensures allocates ==> written == ChunkLength(size, nmemb)
                            && text == old(text) + contents[..ChunkLength(size, nmemb)]
      ensures !allocates ==> written == 0 && text == old(text)
    {
      var newLength := ChunkLength(size, nmemb);
      if !allocates {
        return 0;
      }
      text := text + contents[..newLength];
      written := newLength;
    }
  }

  class Core {
    /** Whether the transfer handle was created. */
    var initialized: bool
    var hasAuth: bool
    var authKey: string
    var sessionKey: string
    var timeout: int
    /** Every request made so far, oldest first. */
    var requests: seq<HttpRequest>

    /** The header list a request carries: the cookie exactly when keys are set. */
    function Headers(): (h: seq<string>)
      reads this
      ensures hasAuth <==> h != []
      ensures hasAuth ==> h == [CookieHeader(authKey, sessionKey)]
    {
      if hasAuth then [CookieHeader(authKey, sessionKey)] else []
    }

    constructor (timeout: int, handleCreated: bool)
      ensures initialized == handleCreated
      ensures !hasAuth && authKey == "" && sessionKey == ""
      ensures this.timeout == timeout
      ensures requests == []
    {
      initialized := handleCreated;
      hasAuth := false;
      authKey, sessionKey := "", "";
      this.timeout := timeout;
      requests := [];
    }

    method SetAuth(auth: string, session: string)
      modifies this`hasAuth, this`authKey, this`sessionKey
      ensures hasAuth && authKey == auth && sessionKey == session
      ensures Headers() == [CookieHeader(auth, session)]
    {
      authKey := auth;
      sessionKey := session;
      hasAuth := true;
    }

    method ClearAuth()
      modifies this`hasAuth, this`authKey, this`sessionKey
      ensures !hasAuth && authKey == "" && sessionKey == ""
      ensures Headers() == []
    {
      authKey := "";
      sessionKey := "";
      hasAuth := false;
    }

    method SetTimeout(t: int)
      modifies this`timeout
      ensures timeout == t
    {
      timeout := t;
    }

    method GetTimeout() returns (t: int)
      ensures t == timeout
    {
      t := timeout;
    }

    method HasAuth() returns (b: bool)
      ensures b == hasAuth
    {
      b := hasAuth;
    }

    /** `request`: it fails without a transfer handle; otherwise it makes one
        request with the current timeout and headers and answers the body, or
        the error text when the transfer fails. */
    method Request(path: string, transfer: Transfer) returns (r: Result<string, CoreError>)
      modifies this`requests
      ensures !initialized ==> r == Failure(NotInitialized) && requests == old(requests)
      ensures initialized ==> requests == old(requests) + [HttpRequest(path, timeout, Headers())]
      ensures initialized ==> r == Success(transfer.Response())
    {
      if !initialized {
        return Failure(NotInitialized);
      }
      var headers: seq<string> := [];
      if hasAuth {
        headers := headers + [CookieHeader(authKey, sessionKey)];
      }
      assert headers == Headers();
      requests := requests + [HttpRequest(path, timeout, headers)];
      var response := "";
      match transfer {
        case Completed(body) => response := body;
        case TransferFailed(text) => response := text;
      }
      return Success(response);
    }

    method GetChannel(channelId: string, transfer: Transfer) returns (r: Result<string, CoreError>)
      modifies this`requests
      ensures !initialized ==> r == Failure(NotInitialized)
      ensures initialized ==> r == Success(transfer.Response())
      ensures initialized ==> requests == old(requests) + [HttpRequest(ChannelPath(channelId), timeout, Headers())]
    {
      r := Request(ChannelPath(channelId), transfer);
    }

    method GetLiveStatus(channelId: string, transfer: Transfer) returns (r: Result<string, CoreError>)
      modifies this`requests
      ensures !initialized ==> r == Failure(NotInitialized)
      ensures initialized ==> r == Success(transfer.Response())
      ensures initialized ==> requests == old(requests) + [HttpRequest(LiveStatusPath(channelId), timeout, Headers())]
    {
      r := Request(LiveStatusPath(channelId), transfer);
    }

    method GetLiveDetail(channelId: string, transfer: Transfer) returns (r: Result<string, CoreError>)
      modifies this`requests
      ensures !initialized ==> r == Failure(NotInitialized)
      ensures initialized ==> r == Success(transfer.Response())
      ensures initialized ==> requests == old(requests) + [HttpRequest(LiveDetailPath(channelId), timeout, Headers())]
    {
      r := Request(LiveDetailPath(channelId), transfer);
    }

    method GetVideo(videoNo: int, transfer: Transfer) returns (r: Result<string, CoreError>)
      modifies this`requests
      ensures !initialized ==> r == Failure(NotInitialized)
      ensures initialized ==> r == Success(transfer.Response())
      ensures initialized ==> requests == old(requests) + [HttpRequest(VideoPath(videoNo), timeout, Headers())]
    {
      r := Request(VideoPath(videoNo), transfer);
    }

    method GetRecommendationChannels(partner: bool, transfer: Transfer) returns (r: Result<string, CoreError>)
      modifies this`requests
      ensures !initialized ==> r == Failure(NotInitialized)
      ensures initialized ==> r == Success(transfer.Response())
      ensures initialized ==> (requests == old(requests) +
        [HttpRequest(if partner then RecommendationPartnersPath else RecommendationChannelsPath, timeout, Headers())])
    {
      r := Request(if partner then RecommendationPartnersPath else RecommendationChannelsPath, transfer);
    }

    method GetRecommendationLives(transfer: Transfer) returns (r: Result<string, CoreError>)
      modifies this`requests
      ensures !initialized ==> r == Failure(NotInitialized)
      ensures initialized ==> r == Success(transfer.Response())
      ensures initialized ==> requests == old(requests) + [HttpRequest(RecommendationLivesPath, timeout, Headers())]
    {
      r := Request(RecommendationLivesPath, transfer);
    }

    method GetUserData(transfer: Transfer) returns (r: Result<string, CoreError>)
      modifies this`requests
      ensures !initialized ==> r == Failure(NotInitialized)
      ensures initialized ==> r == Success(transfer.Response())
      ensures initialized ==> requests == old(requests) + [HttpRequest(UserPath, timeout, Headers())]
    {
      r := Request(UserPath, transfer);
    }

    method GetAccessToken(chatChannelId: string, transfer: Transfer) returns (r: Result<string, CoreError>)
      modifies this`requests
      ensures !initialized ==> r == Failure(NotInitialized)
      ensures initialized ==> r == Success(transfer.Response())
      ensures initialized ==> (requests == old(requests) +
        [HttpRequest(AccessTokenPath(chatChannelId, DefaultChatType), timeout, Headers())])
    {
      r := Request(AccessTokenPath(chatChannelId, DefaultChatType), transfer);
    }

    /** The search requests carry the percent-encoded keyword. */
    method SearchChannel(keyword: seq<Byte>, offset: int, size: int, withFirstChannelContent: bool, transfer: Transfer)
      returns (r: Result<string, CoreError>)
      modifies this`requests
      ensures !initialized ==> r == Failure(NotInitialized)
      ensures initialized ==> r == Success(transfer.Response())
      ensures initialized ==> (requests == old(requests) +
        [HttpRequest(SearchChannelPath(Encoded(keyword), offset, size, withFirstChannelContent), timeout, Headers())])
    {
      var encoded := EncodeUrl(keyword);
      r := Request(SearchChannelPath(encoded, offset, size, withFirstChannelContent), transfer);
    }

    method SearchLive(keyword: seq<Byte>, offset: int, size: int, transfer: Transfer)
      returns (r: Result<string, CoreError>)
      modifies this`requests
      ensures !initialized ==> r == Failure(NotInitialized)
      ensures initialized ==> r == Success(transfer.Response())
      ensures initialized ==> (requests == old(requests) +
        [HttpRequest(SearchLivePath(Encoded(keyword), offset, size), timeout, Headers())])
    {
      var encoded := EncodeUrl(keyword);
      r := Request(SearchLivePath(encoded, offset, size), transfer);
    }

    method SearchVideo(keyword: seq<Byte>, offset: int, size: int, transfer: Transfer)
      returns (r: Result<string, CoreError>)
      modifies this`requests
      ensures !initialized ==> r == Failure(NotInitialized)
      ensures initialized ==> r == Success(transfer.Response())
      ensures initialized ==> (requests == old(requests) +
        [HttpRequest(SearchVideoPath(Encoded(keyword), offset, size), timeout, Headers())])
    {
      var encoded := EncodeUrl(keyword);
      r := Request(SearchVideoPath(encoded, offset, size), transfer);
    }
  }

  /** The keyword a search request carries decodes back to the caller's
      keyword: the encoding holds no `&`, so it is the whole query segment. */
  lemma SearchKeywordRecoverable(keyword: seq<Byte>, offset: int, size: int)
    ensures var p := SearchLivePath(Encoded(keyword), offset, size);
      var segment := UpTo(p[|SearchLivePrefix| + 8..], '&');
      PercentDecode(segment) == Some(keyword)
  {
    EncodedAlphabet(keyword);
    var e := Encoded(keyword);
    assert '&' !in e by {
      forall i | 0 <= i < |e| ensures e[i] != '&' {
        assert IsUnreserved(e[i]) || e[i] == '%' || IsUpperHexDigit(e[i]);
      }
    }
    SearchPathsAsWritten(e, offset, size, false);
    DecodeEncoded(keyword);
  }
}

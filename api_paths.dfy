/** The request paths of the metadata API (src/ChzzkUtils.cpp) over the
    constants of include/chzzkpp/Path.h. Each builder is a plain string
    concatenation; the query builders append their parameters straight after
    the prefix constant, which carries no `?`, exactly as the source does. */
module ApiPaths {
  import opened Decimal

  const SearchChannelPrefix: string := "https://api.chzzk.naver.com/service/v1/search/channels"
  const SearchLivePrefix: string := "https://api.chzzk.naver.com/service/v1/search/lives"
  const SearchVideoPrefix: string := "https://api.chzzk.naver.com/service/v1/search/videos"
  const LiveDetailPrefix: string := "https://api.chzzk.naver.com/service/v2/channels/"
  const LiveStatusPrefix: string := "https://api.chzzk.naver.com/polling/v2/channels/"
  const ChannelPrefix: string := "https://api.chzzk.naver.com/service/v1/channels/"
  const VideoPrefix: string := "https://api.chzzk.naver.com/service/v2/videos/"
  const AccessTokenPrefix: string := "https://comm-api.game.naver.com/nng_main/v1/chats/access-token"

  const UserPath: string := "https://comm-api.game.naver.com/nng_main/v1/user/getUserStatus"
  const RecommendationLivesPath: string := "https://api.chzzk.naver.com/service/v1/home/recommended"
  const RecommendationChannelsPath: string := "https://api.chzzk.naver.com/service/v1/home/recommendation-channels"
  const RecommendationPartnersPath: string := "https://api.chzzk.naver.com/service/v1/streamer-partners/recommended"

  const LiveStatusSuffix: string := "/live-status"
  const LiveDetailSuffix: string := "/live-detail"

  const ChatSocketPrefix: string := "wss://kr-ss"
  const ChatSocketSuffix: string := ".chat.naver.com/chat"

  /** The default `chatType` argument of `getAccessTokenPath`. */
  const DefaultChatType: string := "STREAMING"

  function LiveStatusPath(channelId: string): string
  {
    LiveStatusPrefix + channelId + LiveStatusSuffix
  }

  function LiveDetailPath(channelId: string): string
  {
    LiveDetailPrefix + channelId + LiveDetailSuffix
  }

  function ChannelPath(channelId: string): string
  {
    ChannelPrefix + channelId
  }

  function VideoPath(videoNo: int): string
  {
    VideoPrefix + IntToString(videoNo)
  }

  /** `to_string` of a bool, which is promoted to int: "1" or "0". */
  function FlagText(b: bool): string
  {
    IntToString(if b then 1 else 0)
  }

  /** `keyword=<keyword>&offset=<offset>&size=<size>`. */
  function SearchQuery(keyword: string, offset: int, size: int): string
  {
    "keyword=" + keyword + "&" + PageQuery(offset, size)
  }

  function PageQuery(offset: int, size: int): string
  {
    "offset=" + IntToString(offset) + "&size=" + IntToString(size)
  }

  function SearchChannelPath(keyword: string, offset: int, size: int, withFirstChannelContent: bool): string
  {
    SearchChannelPrefix + SearchQuery(keyword, offset, size)
    + "&withFirstChannelContent" + FlagText(withFirstChannelContent)
  }

  function SearchLivePath(keyword: string, offset: int, size: int): string
  {
    SearchLivePrefix + SearchQuery(keyword, offset, size)
  }

  function SearchVideoPath(keyword: string, offset: int, size: int): string
  {
    SearchVideoPrefix + SearchQuery(keyword, offset, size)
  }

  function AccessTokenPath(chatChannelId: string, chatType: string): string
  {
    AccessTokenPrefix + "channelId=" + chatChannelId + "&chatType=" + chatType
  }

  /** The chat server address for a selector value. */
  function ChatSocketPath(serverId: int): string
  {
    ChatSocketPrefix + IntToString(serverId) + ChatSocketSuffix
  }

  /** The characters of `s` before the first `c`. */
  function UpTo(s: string, c: char): (r: string)
    ensures |r| <= |s| && r == s[..|r|]
  {
    if s == [] || s[0] == c then [] else [s[0]] + UpTo(s[1..], c)
  }

  lemma {:induction false} UpToSeparator(x: string, c: char, y: string)
    requires c !in x
    ensures UpTo(x + [c] + y, c) == x
  {
    if x != [] {
      assert (x + [c] + y)[1..] == x[1..] + [c] + y;
      UpToSeparator(x[1..], c, y);
    }
  }

  lemma SliceMiddle(a: string, x: string, b: string)
    ensures (a + x + b)[|a|..|a| + |x|] == x
  {
    assert (a + x + b)[|a|..|a| + |x|] == (a + x)[|a|..];
  }

  /** The argument is recoverable from each path that wraps it between fixed
      texts: different arguments give different paths. */
  lemma ChannelPathsInjective(a: string, b: string)
    ensures LiveStatusPath(a) == LiveStatusPath(b) ==> a == b
    ensures LiveDetailPath(a) == LiveDetailPath(b) ==> a == b
    ensures ChannelPath(a) == ChannelPath(b) ==> a == b
    ensures AccessTokenPath(a, DefaultChatType) == AccessTokenPath(b, DefaultChatType) ==> a == b
  {
    if LiveStatusPath(a) == LiveStatusPath(b) {
      assert |a| == |b|;
      SliceMiddle(LiveStatusPrefix, a, LiveStatusSuffix);
      SliceMiddle(LiveStatusPrefix, b, LiveStatusSuffix);
    }
    if LiveDetailPath(a) == LiveDetailPath(b) {
      assert |a| == |b|;
      SliceMiddle(LiveDetailPrefix, a, LiveDetailSuffix);
      SliceMiddle(LiveDetailPrefix, b, LiveDetailSuffix);
    }
    if ChannelPath(a) == ChannelPath(b) {
      assert a == ChannelPath(a)[|ChannelPrefix|..];
    }
    if AccessTokenPath(a, DefaultChatType) == AccessTokenPath(b, DefaultChatType) {
      var p := AccessTokenPrefix + "channelId=";
      var s := "&chatType=" + DefaultChatType;
      assert AccessTokenPath(a, DefaultChatType) == p + a + s;
      assert AccessTokenPath(b, DefaultChatType) == p + b + s;
      assert |a| == |b|;
      SliceMiddle(p, a, s);
      SliceMiddle(p, b, s);
    }
  }

  /** The video number is written in decimal and can be read back. */
  lemma VideoPathNumber(videoNo: int)
    ensures var p := VideoPath(videoNo);
      p[..|VideoPrefix|] == VideoPrefix && ParseInt(p[|VideoPrefix|..]) == videoNo
  {
    var p := VideoPath(videoNo);
    assert p[|VideoPrefix|..] == IntToString(videoNo);
    IntToStringRoundTrip(videoNo);
  }

  /** The keyword sits right after the prefix and `keyword=`, and when it
      holds no `&` it is exactly the text up to the next `&`, whatever follows
      the query. */
  lemma SearchKeywordSegment(prefix: string, keyword: string, offset: int, size: int, rest: string)
    requires '&' !in keyword
    ensures var p := prefix + SearchQuery(keyword, offset, size) + rest;
      && p[..|prefix| + 8] == prefix + "keyword="
      && UpTo(p[|prefix| + 8..], '&') == keyword
  {
    KeywordField(prefix, keyword, PageQuery(offset, size), rest);
  }

  /** The keyword sits between `keyword=` and the next `&`. */
  lemma KeywordField(prefix: string, keyword: string, page: string, rest: string)
    requires '&' !in keyword
    ensures var p := prefix + ("keyword=" + keyword + "&" + page) + rest;
      && p[..|prefix| + 8] == prefix + "keyword="
      && UpTo(p[|prefix| + 8..], '&') == keyword
  {
    var a := prefix + "keyword=";
    var t := page + rest;
    var p := prefix + ("keyword=" + keyword + "&" + page) + rest;
    assert p == a + (keyword + ['&'] + t);
    assert p[|a|..] == keyword + ['&'] + t;
    UpToSeparator(keyword, '&', t);
  }

  /** The three search paths as written: `keyword=` follows the prefix with
      no `?` in between, the keyword is read back up to the next `&`, and the
      channel search ends in `&withFirstChannelContent` followed directly by
      0 or 1, with no `=`. */
  lemma SearchPathsAsWritten(keyword: string, offset: int, size: int, w: bool)
    requires '&' !in keyword
    ensures var p := SearchLivePath(keyword, offset, size);
      p[..|SearchLivePrefix| + 8] == SearchLivePrefix + "keyword="
      && UpTo(p[|SearchLivePrefix| + 8..], '&') == keyword
    ensures var p := SearchVideoPath(keyword, offset, size);
      p[..|SearchVideoPrefix| + 8] == SearchVideoPrefix + "keyword="
      && UpTo(p[|SearchVideoPrefix| + 8..], '&') == keyword
    ensures var p := SearchChannelPath(keyword, offset, size, w);
      && p[..|SearchChannelPrefix| + 8] == SearchChannelPrefix + "keyword="
      && UpTo(p[|SearchChannelPrefix| + 8..], '&') == keyword
      && p[|p| - 25..] == "&withFirstChannelContent" + (if w then "1" else "0")
  {
    SearchKeywordSegment(SearchLivePrefix, keyword, offset, size, []);
    assert SearchLivePath(keyword, offset, size) == SearchLivePrefix + SearchQuery(keyword, offset, size) + [];
    SearchKeywordSegment(SearchVideoPrefix, keyword, offset, size, []);
    assert SearchVideoPath(keyword, offset, size) == SearchVideoPrefix + SearchQuery(keyword, offset, size) + [];
    var tail := "&withFirstChannelContent" + FlagText(w);
    assert SearchChannelPath(keyword, offset, size, w) == SearchChannelPrefix + SearchQuery(keyword, offset, size) + tail;
    SearchKeywordSegment(SearchChannelPrefix, keyword, offset, size, tail);
    assert FlagText(w) == (if w then "1" else "0");
    SuffixOf(SearchChannelPrefix + SearchQuery(keyword, offset, size), tail);
  }

  lemma SuffixOf(x: string, t: string)
    ensures (x + t)[|x + t| - |t|..] == t
  {
  }
}

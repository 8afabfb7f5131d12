/** The `parse<T>` specialisations of src/ChzzkUtils.cpp and the two
    `json_safe_get` helpers of include/chzzkpp/ChzzkUtils.h: every field is
    read under its own key when that key is present and not null, and takes
    its type's default otherwise. A present value of the wrong type makes the
    library's conversion throw, which the parse passes on as a `Failure`. */
module ApiParse {
  import opened Wrappers
  import opened JsonModel
  import opened ApiTypes

  /** `json.find(key) != json.end() && !json[key].is_null()`. */
  predicate Present(j: Json, key: string)
  {
    Has(j, key) && !Get(j, key).Null?
  }

  // What a field holds after `json_safe_get(dest, json, key)`, per C++ type.

  predicate TextField(j: Json, key: string, v: string)
  {
    if Present(j, key) then Get(j, key) == Str(v) else v == ""
  }

  predicate IntField(j: Json, key: string, v: int)
  {
    if Present(j, key) then ToInt(Get(j, key)) == Success(v) else v == 0
  }

  predicate FlagField(j: Json, key: string, v: bool)
  {
    if Present(j, key) then Get(j, key) == Bool(v) else !v
  }

  // When that assignment does not throw.

  predicate TextOk(j: Json, key: string)
  {
    !Present(j, key) || Get(j, key).Str?
  }

  predicate IntOk(j: Json, key: string)
  {
    !Present(j, key) || Get(j, key).Number? || Get(j, key).Bool?
  }

  predicate FlagOk(j: Json, key: string)
  {
    !Present(j, key) || Get(j, key).Bool?
  }

  /** `json_safe_get` into a std::string. */
  function SafeText(j: Json, key: string): (r: Result<string, JsonError>)
    ensures r.Success? <==> TextOk(j, key)
    ensures r.Success? ==> TextField(j, key, r.value)
  {
    if Present(j, key) then ToText(Get(j, key)) else Success("")
  }

  /** `json_safe_get` into an int. */
  function SafeInt(j: Json, key: string): (r: Result<int, JsonError>)
    ensures r.Success? <==> IntOk(j, key)
    ensures r.Success? ==> IntField(j, key, r.value)
    ensures r.Success? ==> -0x8000_0000 <= r.value < 0x8000_0000
  {
    if Present(j, key) then ToInt(Get(j, key)) else Success(0)
  }

  /** `json_safe_get` into a bool. */
  function SafeFlag(j: Json, key: string): (r: Result<bool, JsonError>)
    ensures r.Success? <==> FlagOk(j, key)
    ensures r.Success? ==> FlagField(j, key, r.value)
  {
    if Present(j, key) then ToBool(Get(j, key)) else Success(false)
  }

  /** `json_safe_get<std::string>(json)`: the conversion's error is caught and
      the empty string takes its place, so it never fails. */
  function StringOr(j: Json): (r: string)
    ensures j.Str? ==> r == j.s
    ensures !j.Str? ==> r == ""
  {
    match ToText(j)
    case Success(s) => s
    case Failure(_) => ""
  }

  /** One string per element, in order. */
  function Strings(xs: seq<Json>): (r: seq<string>)
    ensures |r| == |xs|
    ensures forall i :: 0 <= i < |xs| ==> r[i] == StringOr(xs[i])
  {
    if xs == [] then [] else [StringOr(xs[0])] + Strings(xs[1..])
  }

  /** The list a `for (auto& element : json[key]) push_back(...)` loop builds
      when the key exists, and the empty list when it does not. */
  function StringList(j: Json, key: string): seq<string>
  {
    if Has(j, key) then Strings(Elements(Get(j, key))) else []
  }

  /** The loop itself. */
  method CollectStrings(j: Json, key: string) returns (list: seq<string>)
    ensures list == StringList(j, key)
    ensures !Has(j, key) ==> list == []
    ensures Has(j, key) ==> |list| == |Elements(Get(j, key))|
  {
    list := [];
    if Has(j, key) {
      var elements := Elements(Get(j, key));
      var i := 0;
      while i < |elements|
        invariant 0 <= i <= |elements|
        invariant |list| == i
        invariant forall k :: 0 <= k < i ==> list[k] == StringOr(elements[k])
      {
        list := list + [StringOr(elements[i])];
        i := i + 1;
      }
    }
  }

  /** `.dump()` of a member when its key exists, else the empty string. */
  function DumpOf(j: Json, key: string, dump: Json -> string): (r: string)
    ensures !Has(j, key) ==> r == ""
    ensures Has(j, key) ==> r == dump(Get(j, key))
  {
    if Has(j, key) then dump(Get(j, key)) else ""
  }

  // The user record is read in two stages, the second leaving the fields of
  // the first as they were.

  predicate UserDataOkA(j: Json)
  {
    FlagOk(j, "hasProfile") && TextOk(j, "userIdHash") && TextOk(j, "nickname") && TextOk(j, "profileImageUrl")
  }

  predicate UserDataFromA(j: Json, u: UserData)
  {
    FlagField(j, "hasProfile", u.hasProfile) && TextField(j, "userIdHash", u.userIdHash)
    && TextField(j, "nickname", u.nickname) && TextField(j, "profileImageUrl", u.profileImageUrl)
  }

  predicate UserDataOkB(j: Json)
  {
    FlagOk(j, "officialNotiAgree") && TextOk(j, "officialNotiAgreeUpdateDate")
    && FlagOk(j, "verifiedMask") && FlagOk(j, "loggedIn")
  }

  predicate UserDataFromB(j: Json, u: UserData)
  {
    u.penalties == StringList(j, "penalties")
    && FlagField(j, "officialNotiAgree", u.officialNotiAgree)
    && TextField(j, "officialNotiAgreeUpdateDate", u.officialNotiAgreeUpdatedDate)
    && FlagField(j, "verifiedMask", u.verified) && FlagField(j, "loggedIn", u.loggedIn)
  }

  function UserDataA(j: Json): (r: Result<UserData, JsonError>)
    ensures r.Success? <==> UserDataOkA(j)
    ensures r.Success? ==> UserDataFromA(j, r.value)
  {
    var hasProfile :- SafeFlag(j, "hasProfile");
    var userIdHash :- SafeText(j, "userIdHash");
    var nickname :- SafeText(j, "nickname");
    var profileImageUrl :- SafeText(j, "profileImageUrl");
    Success(UserData(hasProfile, userIdHash, nickname, profileImageUrl, [], false, "", false, false))
  }

  function UserDataB(j: Json, u: UserData): (r: Result<UserData, JsonError>)
    ensures r.Success? <==> UserDataOkB(j)
    ensures r.Success? ==> UserDataFromB(j, r.value)
    ensures r.Success? && UserDataFromA(j, u) ==> UserDataFromA(j, r.value)
  {
    var notiAgree :- SafeFlag(j, "officialNotiAgree");
    var notiDate :- SafeText(j, "officialNotiAgreeUpdateDate");
    var verified :- SafeFlag(j, "verifiedMask");
    var loggedIn :- SafeFlag(j, "loggedIn");
    Success(u.(penalties := StringList(j, "penalties"), officialNotiAgree := notiAgree,
               officialNotiAgreeUpdatedDate := notiDate, verified := verified, loggedIn := loggedIn))
  }

  function ParseUserData(j: Json): (r: Result<UserData, JsonError>)
    ensures r.Success? <==> UserDataOkA(j) && UserDataOkB(j)
    ensures r.Success? ==> UserDataFromA(j, r.value) && UserDataFromB(j, r.value)
  {
    var a :- UserDataA(j);
    UserDataB(j, a)
  }

  function ParseTemporaryRestrict(j: Json): (r: Result<TemporaryRestrict, JsonError>)
    ensures r.Success? <==>
      IntOk(j, "createdTime") && IntOk(j, "duration") && FlagOk(j, "temporaryRestrict") && IntOk(j, "times")
    ensures r.Success? ==>
      IntField(j, "createdTime", r.value.createdTime) && IntField(j, "duration", r.value.duration)
      && FlagField(j, "temporaryRestrict", r.value.temporaryRestrict) && IntField(j, "times", r.value.times)
  {
    var createdTime :- SafeInt(j, "createdTime");
    var duration :- SafeInt(j, "duration");
    var restricted :- SafeFlag(j, "temporaryRestrict");
    var times :- SafeInt(j, "times");
    Success(TemporaryRestrict(createdTime, duration, restricted, times))
  }

  function ParseAccessToken(j: Json): (r: Result<AccessToken, JsonError>)
    ensures r.Success? <==>
      TextOk(j, "accessToken") && TextOk(j, "extraToken") && FlagOk(j, "realNameAuth")
      && (Has(j, "temporaryRestrict") ==> ParseTemporaryRestrict(Get(j, "temporaryRestrict")).Success?)
    ensures r.Success? ==>
      TextField(j, "accessToken", r.value.accessToken) && TextField(j, "extraToken", r.value.extraToken)
      && FlagField(j, "realNameAuth", r.value.realNameAuth)
      && r.value.temporaryRestrict == (if Has(j, "temporaryRestrict")
                                       then ParseTemporaryRestrict(Get(j, "temporaryRestrict")).value
                                       else DefaultTemporaryRestrict)
  {
    var accessToken :- SafeText(j, "accessToken");
    var extraToken :- SafeText(j, "extraToken");
    var realNameAuth :- SafeFlag(j, "realNameAuth");
    var restrict :- if Has(j, "temporaryRestrict") then ParseTemporaryRestrict(Get(j, "temporaryRestrict"))
                    else Success(DefaultTemporaryRestrict);
    Success(AccessToken(accessToken, extraToken, realNameAuth, restrict))
  }

  /** An empty document gives an unavailable record; anything else an
      available one. */
  function ParseFollowingInfo(j: Json): (r: Result<FollowingInfo, JsonError>)
    ensures IsEmpty(j) ==> r == Success(DefaultFollowingInfo)
    ensures r.Success? <==>
      IsEmpty(j) || (FlagOk(j, "following") && FlagOk(j, "notification") && TextOk(j, "followDate"))
    ensures r.Success? ==> (r.value.available <==> !IsEmpty(j))
    ensures r.Success? && !IsEmpty(j) ==>
      FlagField(j, "following", r.value.following) && FlagField(j, "notification", r.value.notification)
      && TextField(j, "followDate", r.value.followDate)
  {
    if IsEmpty(j) then Success(DefaultFollowingInfo)
    else
      var following :- SafeFlag(j, "following");
      var notification :- SafeFlag(j, "notification");
      var followDate :- SafeText(j, "followDate");
      Success(FollowingInfo(true, following, notification, followDate))
  }

  function ParsePersonalData(j: Json): (r: Result<PersonalData, JsonError>)
    ensures IsEmpty(j) ==> r == Success(DefaultPersonalData)
    ensures r.Success? <==>
      IsEmpty(j) || ((Has(j, "following") ==> ParseFollowingInfo(Get(j, "following")).Success?)
                     && FlagOk(j, "privateUserBlock"))
    ensures r.Success? ==> (r.value.available <==> !IsEmpty(j))
    ensures r.Success? && !IsEmpty(j) ==>
      FlagField(j, "privateUserBlock", r.value.privateUserBlock)
      && r.value.followInfo == (if Has(j, "following") then ParseFollowingInfo(Get(j, "following")).value
                                else DefaultFollowingInfo)
  {
    if IsEmpty(j) then Success(DefaultPersonalData)
    else
      var followInfo :- if Has(j, "following") then ParseFollowingInfo(Get(j, "following"))
                        else Success(DefaultFollowingInfo);
      var block :- SafeFlag(j, "privateUserBlock");
      Success(PersonalData(true, followInfo, block))
  }

  function ParsePaymentAvailability(j: Json): (r: Result<PaymentAvailability, JsonError>)
    ensures r.Success? <==> FlagOk(j, "iapAvailability") && FlagOk(j, "iabAvailability")
    ensures r.Success? ==>
      FlagField(j, "iapAvailability", r.value.iapAvailability)
      && FlagField(j, "iabAvailability", r.value.iabAvailability)
  {
    var iap :- SafeFlag(j, "iapAvailability");
    var iab :- SafeFlag(j, "iabAvailability");
    Success(PaymentAvailability(iap, iab))
  }

  /** The nested `personalData` record, parsed only when its key exists. */
  function NestedPersonalData(j: Json): Result<PersonalData, JsonError>
  {
    if Has(j, "personalData") then ParsePersonalData(Get(j, "personalData")) else Success(DefaultPersonalData)
  }

  predicate ChannelInfoOk(j: Json)
  {
    TextOk(j, "channelId") && TextOk(j, "channelName") && TextOk(j, "channelImageUrl")
    && FlagOk(j, "verifiedMask") && TextOk(j, "channelDescription") && IntOk(j, "followerCount")
    && NestedPersonalData(j).Success?
  }

  predicate ChannelInfoFrom(j: Json, c: ChannelInfo)
  {
    TextField(j, "channelId", c.id) && TextField(j, "channelName", c.name)
    && TextField(j, "channelImageUrl", c.imageUrl) && FlagField(j, "verifiedMask", c.verified)
    && TextField(j, "channelDescription", c.description) && IntField(j, "followerCount", c.followerCount)
    && NestedPersonalData(j) == Success(c.personalData)
  }

  function ParseChannelInfo(j: Json): (r: Result<ChannelInfo, JsonError>)
    ensures r.Success? <==> ChannelInfoOk(j)
    ensures r.Success? ==> ChannelInfoFrom(j, r.value)
  {
    var id :- SafeText(j, "channelId");
    var name :- SafeText(j, "channelName");
    var imageUrl :- SafeText(j, "channelImageUrl");
    var verified :- SafeFlag(j, "verifiedMask");
    var description :- SafeText(j, "channelDescription");
    var followerCount :- SafeInt(j, "followerCount");
    var personalData :- NestedPersonalData(j);
    Success(ChannelInfo(id, name, imageUrl, verified, description, followerCount, personalData))
  }

  /** A nested channel record under `key`, parsed only when the key exists. */
  function NestedChannelInfo(j: Json, key: string): Result<ChannelInfo, JsonError>
  {
    if Has(j, key) then ParseChannelInfo(Get(j, key)) else Success(DefaultChannelInfo)
  }

  /** The payment record sits under the key spelled `sucbscriptionPaymentAvailability`,
      and is parsed only when that key exists. */
  function NestedPayment(j: Json): Result<PaymentAvailability, JsonError>
  {
    if Has(j, "sucbscriptionPaymentAvailability")
    then ParsePaymentAvailability(Get(j, "sucbscriptionPaymentAvailability"))
    else Success(DefaultPaymentAvailability)
  }

  predicate ChannelOk(j: Json)
  {
    TextOk(j, "channelType") && FlagOk(j, "openLive") && FlagOk(j, "subscriptionAvailability")
    && NestedPayment(j).Success? && FlagOk(j, "adMonetizationAvailability")
  }

  /** `userAdultStatus` is never read and stays empty. */
  predicate ChannelFrom(j: Json, c: Channel)
  {
    TextField(j, "channelType", c.channelType) && FlagField(j, "openLive", c.openLive)
    && FlagField(j, "subscriptionAvailability", c.subscriptionAvailability)
    && NestedPayment(j) == Success(c.subscriptionPaymentAvailability)
    && FlagField(j, "adMonetizationAvailability", c.adMonetizationAvailability)
    && c.userAdultStatus == ""
  }

  /** The fields a channel reads beyond its channel record. */
  function ChannelFields(j: Json, info: ChannelInfo): (r: Result<Channel, JsonError>)
    ensures r.Success? <==> ChannelOk(j)
    ensures r.Success? ==> ChannelFrom(j, r.value) && r.value.info == info
  {
    var channelType :- SafeText(j, "channelType");
    var openLive :- SafeFlag(j, "openLive");
    var subscription :- SafeFlag(j, "subscriptionAvailability");
    var payment :- NestedPayment(j);
    var adMonetization :- SafeFlag(j, "adMonetizationAvailability");
    Success(Channel(info, channelType, openLive, subscription, payment, adMonetization, ""))
  }

  function ParseChannel(j: Json): (r: Result<Channel, JsonError>)
    ensures r.Success? <==> ChannelInfoOk(j) && ChannelOk(j)
    ensures r.Success? ==> ChannelInfoFrom(j, r.value.info) && ChannelFrom(j, r.value)
  {
    var info :- ParseChannelInfo(j);
    ChannelFields(j, info)
  }

  function ParseLivePollingStatus(j: Json): (r: Result<LivePollingStatus, JsonError>)
    ensures r.Success? <==>
      TextOk(j, "status") && FlagOk(j, "isPublishing") && TextOk(j, "playableStatus")
      && IntOk(j, "trafficThrottling") && IntOk(j, "callPeriodMilliSecond")
    ensures r.Success? ==> var s := r.value;
      TextField(j, "status", s.status) && FlagField(j, "isPublishing", s.isPublishing)
      && TextField(j, "playableStatus", s.playableStatus)
      && IntField(j, "trafficThrottling", s.trafficThrottling)
      && IntField(j, "callPeriodMilliSecond", s.callPeriodMilliSecond)
  {
    var status :- SafeText(j, "status");
    var isPublishing :- SafeFlag(j, "isPublishing");
    var playableStatus :- SafeText(j, "playableStatus");
    var throttling :- SafeInt(j, "trafficThrottling");
    var period :- SafeInt(j, "callPeriodMilliSecond");
    Success(LivePollingStatus(status, isPublishing, playableStatus, throttling, period))
  }

  /** The polling record of a live status, under `livePollingStatusJson`. */
  function NestedPollingStatus(j: Json): Result<LivePollingStatus, JsonError>
  {
    if Has(j, "livePollingStatusJson") then ParseLivePollingStatus(Get(j, "livePollingStatusJson"))
    else Success(DefaultLivePollingStatus)
  }

  // The live status is read in four stages; each stage assigns its own
  // fields and keeps what the earlier stages read.

  predicate LiveStatusOkA(j: Json)
  {
    TextOk(j, "liveTitle") && TextOk(j, "status") && IntOk(j, "concurrentUserCount")
    && IntOk(j, "accumulateCount") && FlagOk(j, "paidPromotion") && FlagOk(j, "adult")
  }

  predicate LiveStatusFromA(j: Json, s: LiveStatus)
  {
    TextField(j, "liveTitle", s.title) && TextField(j, "status", s.status)
    && IntField(j, "concurrentUserCount", s.concurrentUserCount)
    && IntField(j, "accumulateCount", s.accumulatedUserCount)
    && FlagField(j, "paidPromotion", s.paidPromotion) && FlagField(j, "adult", s.adult)
  }

  predicate LiveStatusOkB(j: Json)
  {
    FlagOk(j, "krOnlyViewing") && FlagOk(j, "clipActive") && TextOk(j, "chatChannelId")
    && TextOk(j, "categoryType") && TextOk(j, "liveCategory")
  }

  predicate LiveStatusFromB(j: Json, s: LiveStatus)
  {
    FlagField(j, "krOnlyViewing", s.krOnlyViewing) && FlagField(j, "clipActive", s.clipActive)
    && TextField(j, "chatChannelId", s.chatChannelId) && s.tags == StringList(j, "tags")
    && TextField(j, "categoryType", s.categoryType) && TextField(j, "liveCategory", s.liveCategory)
  }

  predicate LiveStatusOkC(j: Json)
  {
    TextOk(j, "liveCategoryValue") && NestedPollingStatus(j).Success? && TextOk(j, "faultStatus")
    && TextOk(j, "userAdultStatus") && TextOk(j, "blindType")
  }

  predicate LiveStatusFromC(j: Json, s: LiveStatus)
  {
    TextField(j, "liveCategoryValue", s.liveCategoryValue)
    && NestedPollingStatus(j) == Success(s.livePollingStatus)
    && TextField(j, "faultStatus", s.faultStatus) && TextField(j, "userAdultStatus", s.userAdultStatus)
    && TextField(j, "blindType", s.blindType)
  }

  predicate LiveStatusOkD(j: Json)
  {
    FlagOk(j, "chatActive") && TextOk(j, "chatAvailableGroup") && TextOk(j, "chatAvailableCondition")
    && IntOk(j, "minFollowerMinute") && FlagOk(j, "chatDonationRankingExposure")
  }

  predicate LiveStatusFromD(j: Json, s: LiveStatus)
  {
    FlagField(j, "chatActive", s.chatActive)
    && TextField(j, "chatAvailableGroup", s.chatAvailableGroup)
    && TextField(j, "chatAvailableCondition", s.chatAvailableCondition)
    && IntField(j, "minFollowerMinute", s.minFollowerMinute)
    && FlagField(j, "chatDonationRankingExposure", s.chatDonationRankingExposure)
  }

  predicate LiveStatusOk(j: Json)
  {
    LiveStatusOkA(j) && LiveStatusOkB(j) && LiveStatusOkC(j) && LiveStatusOkD(j)
  }

  predicate LiveStatusFrom(j: Json, s: LiveStatus)
  {
    LiveStatusFromA(j, s) && LiveStatusFromB(j, s) && LiveStatusFromC(j, s) && LiveStatusFromD(j, s)
  }

  const DefaultLiveStatus := LiveStatus("", "", 0, 0, false, false, false, false, "", [], "", "", "",
                                        DefaultLivePollingStatus, "", "", "", false, "", "", 0, false)

  function LiveStatusA(j: Json): (r: Result<LiveStatus, JsonError>)
    ensures r.Success? <==> LiveStatusOkA(j)
    ensures r.Success? ==> LiveStatusFromA(j, r.value)
  {
    var title :- SafeText(j, "liveTitle");
    var status :- SafeText(j, "status");
    var concurrent :- SafeInt(j, "concurrentUserCount");
    var accumulated :- SafeInt(j, "accumulateCount");
    var paidPromotion :- SafeFlag(j, "paidPromotion");
    var adult :- SafeFlag(j, "adult");
    Success(DefaultLiveStatus.(title := title, status := status, concurrentUserCount := concurrent,
                               accumulatedUserCount := accumulated, paidPromotion := paidPromotion,
                               adult := adult))
  }

  function LiveStatusB(j: Json, s: LiveStatus): (r: Result<LiveStatus, JsonError>)
    ensures r.Success? <==> LiveStatusOkB(j)
    ensures r.Success? ==> LiveStatusFromB(j, r.value)
    ensures r.Success? && LiveStatusFromA(j, s) ==> LiveStatusFromA(j, r.value)
  {
    var krOnly :- SafeFlag(j, "krOnlyViewing");
    var clipActive :- SafeFlag(j, "clipActive");
    var chatChannelId :- SafeText(j, "chatChannelId");
    var categoryType :- SafeText(j, "categoryType");
    var liveCategory :- SafeText(j, "liveCategory");
    Success(s.(krOnlyViewing := krOnly, clipActive := clipActive, chatChannelId := chatChannelId,
               tags := StringList(j, "tags"), categoryType := categoryType, liveCategory := liveCategory))
  }

  function LiveStatusC(j: Json, s: LiveStatus): (r: Result<LiveStatus, JsonError>)
    ensures r.Success? <==> LiveStatusOkC(j)
    ensures r.Success? ==> LiveStatusFromC(j, r.value)
    ensures r.Success? && LiveStatusFromA(j, s) ==> LiveStatusFromA(j, r.value)
    ensures r.Success? && LiveStatusFromB(j, s) ==> LiveStatusFromB(j, r.value)
  {
    var categoryValue :- SafeText(j, "liveCategoryValue");
    var polling :- NestedPollingStatus(j);
    var faultStatus :- SafeText(j, "faultStatus");
    var adultStatus :- SafeText(j, "userAdultStatus");
    var blindType :- SafeText(j, "blindType");
    Success(s.(liveCategoryValue := categoryValue, livePollingStatus := polling, faultStatus := faultStatus,
               userAdultStatus := adultStatus, blindType := blindType))
  }

  function LiveStatusD(j: Json, s: LiveStatus): (r: Result<LiveStatus, JsonError>)
    ensures r.Success? <==> LiveStatusOkD(j)
    ensures r.Success? ==> LiveStatusFromD(j, r.value)
    ensures r.Success? && LiveStatusFromA(j, s) ==> LiveStatusFromA(j, r.value)
    ensures r.Success? && LiveStatusFromB(j, s) ==> LiveStatusFromB(j, r.value)
    ensures r.Success? && LiveStatusFromC(j, s) ==> LiveStatusFromC(j, r.value)
  {
    var chatActive :- SafeFlag(j, "chatActive");
    var group :- SafeText(j, "chatAvailableGroup");
    var condition :- SafeText(j, "chatAvailableCondition");
    var minFollower :- SafeInt(j, "minFollowerMinute");
    var ranking :- SafeFlag(j, "chatDonationRankingExposure");
    Success(s.(chatActive := chatActive, chatAvailableGroup := group, chatAvailableCondition := condition,
               minFollowerMinute := minFollower, chatDonationRankingExposure := ranking))
  }

  function ParseLiveStatus(j: Json): (r: Result<LiveStatus, JsonError>)
    ensures r.Success? <==> LiveStatusOk(j)
    ensures r.Success? ==> LiveStatusFrom(j, r.value)
  {
    var a :- LiveStatusA(j);
    var b :- LiveStatusB(j, a);
    var c :- LiveStatusC(j, b);
    LiveStatusD(j, c)
  }

  /** The live fields every live record reads, in two stages; the channel
      record is left at its default. */
  predicate LiveBaseOkA(j: Json)
  {
    IntOk(j, "liveId") && TextOk(j, "liveTitle") && TextOk(j, "liveImageUrl")
    && TextOk(j, "defaultThumbnailImageUrl") && IntOk(j, "concurrentUserCount")
    && IntOk(j, "accumulateCount") && TextOk(j, "openDate")
  }

  predicate LiveBaseFromA(j: Json, l: LiveInfo)
  {
    IntField(j, "liveId", l.id) && TextField(j, "liveTitle", l.title)
    && TextField(j, "liveImageUrl", l.imageUrl)
    && TextField(j, "defaultThumbnailImageUrl", l.defaultThumbnailImageUrl)
    && IntField(j, "concurrentUserCount", l.concurrentUserCount)
    && IntField(j, "accumulateCount", l.accumulatedUserCount)
    && TextField(j, "openDate", l.openDate)
  }

  predicate LiveBaseOkB(j: Json)
  {
    FlagOk(j, "adult") && TextOk(j, "categoryType") && TextOk(j, "liveCategory")
    && TextOk(j, "liveCategoryValue") && TextOk(j, "channelId") && TextOk(j, "blindType")
  }

  predicate LiveBaseFromB(j: Json, l: LiveInfo)
  {
    FlagField(j, "adult", l.adult) && l.tags == StringList(j, "tags")
    && TextField(j, "categoryType", l.categoryType) && TextField(j, "liveCategory", l.liveCategory)
    && TextField(j, "liveCategoryValue", l.liveCategoryValue)
    && TextField(j, "channelId", l.channelId) && TextField(j, "blindType", l.blindType)
  }

  predicate LiveBaseOk(j: Json)
  {
    LiveBaseOkA(j) && LiveBaseOkB(j)
  }

  predicate LiveBaseFrom(j: Json, l: LiveInfo)
  {
    LiveBaseFromA(j, l) && LiveBaseFromB(j, l)
  }

  function LiveBaseA(j: Json): (r: Result<LiveInfo, JsonError>)
    ensures r.Success? <==> LiveBaseOkA(j)
    ensures r.Success? ==> LiveBaseFromA(j, r.value) && r.value.channelInfo == DefaultChannelInfo
  {
    var id :- SafeInt(j, "liveId");
    var title :- SafeText(j, "liveTitle");
    var imageUrl :- SafeText(j, "liveImageUrl");
    var thumbnail :- SafeText(j, "defaultThumbnailImageUrl");
    var concurrent :- SafeInt(j, "concurrentUserCount");
    var accumulated :- SafeInt(j, "accumulateCount");
    var openDate :- SafeText(j, "openDate");
    Success(LiveInfo(id, title, imageUrl, thumbnail, concurrent, accumulated, openDate, false,
                     [], "", "", "", "", DefaultChannelInfo, ""))
  }

  function LiveBaseB(j: Json, l: LiveInfo): (r: Result<LiveInfo, JsonError>)
    ensures r.Success? <==> LiveBaseOkB(j)
    ensures r.Success? ==> LiveBaseFromB(j, r.value) && r.value.channelInfo == l.channelInfo
    ensures r.Success? && LiveBaseFromA(j, l) ==> LiveBaseFromA(j, r.value)
  {
    var adult :- SafeFlag(j, "adult");
    var categoryType :- SafeText(j, "categoryType");
    var liveCategory :- SafeText(j, "liveCategory");
    var categoryValue :- SafeText(j, "liveCategoryValue");
    var channelId :- SafeText(j, "channelId");
    var blindType :- SafeText(j, "blindType");
    Success(l.(adult := adult, tags := StringList(j, "tags"), categoryType := categoryType,
               liveCategory := liveCategory, liveCategoryValue := categoryValue, channelId := channelId,
               blindType := blindType))
  }

  function LiveBase(j: Json): (r: Result<LiveInfo, JsonError>)
    ensures r.Success? <==> LiveBaseOk(j)
    ensures r.Success? ==> LiveBaseFrom(j, r.value) && r.value.channelInfo == DefaultChannelInfo
  {
    var a :- LiveBaseA(j);
    LiveBaseB(j, a)
  }

  /** A live info also reads its channel record under `channel`. */
  function ParseLiveInfo(j: Json): (r: Result<LiveInfo, JsonError>)
    ensures r.Success? <==> LiveBaseOk(j) && NestedChannelInfo(j, "channel").Success?
    ensures r.Success? ==>
      LiveBaseFrom(j, r.value) && NestedChannelInfo(j, "channel") == Success(r.value.channelInfo)
  {
    var base :- LiveBase(j);
    var channel :- NestedChannelInfo(j, "channel");
    Success(base.(channelInfo := channel))
  }

  /** A live search entry leaves its channel record at the default. */
  function ParseLive(j: Json): (r: Result<Live, JsonError>)
    ensures r.Success? <==> LiveBaseOk(j) && TextOk(j, "chatChannelId") && TextOk(j, "livePlaybackJson")
    ensures r.Success? ==>
      LiveBaseFrom(j, r.value.info) && r.value.info.channelInfo == DefaultChannelInfo
      && TextField(j, "chatChannelId", r.value.chatChannelId)
      && TextField(j, "livePlaybackJson", r.value.livePlayback)
  {
    var base :- LiveBase(j);
    var chatChannelId :- SafeText(j, "chatChannelId");
    var playback :- SafeText(j, "livePlaybackJson");
    Success(Live(base, chatChannelId, playback))
  }

  // A live detail is read in three stages: the live fields, then two groups
  // of detail fields, each stage keeping what the earlier ones read.

  predicate LiveDetailOkA(j: Json)
  {
    TextOk(j, "chatChannelId") && TextOk(j, "livePlaybackJson") && NestedChannelInfo(j, "channel").Success?
    && TextOk(j, "status") && TextOk(j, "closeDate") && FlagOk(j, "clipActive")
  }

  predicate LiveDetailFromA(j: Json, d: LiveDetail)
  {
    TextField(j, "chatChannelId", d.live.chatChannelId)
    && TextField(j, "livePlaybackJson", d.live.livePlayback)
    && NestedChannelInfo(j, "channel") == Success(d.live.info.channelInfo)
    && TextField(j, "status", d.status) && TextField(j, "closeDate", d.closeDate)
    && FlagField(j, "clipActive", d.clipActive)
  }

  predicate LiveDetailOkB(j: Json)
  {
    FlagOk(j, "chatActive") && TextOk(j, "chatAvailableGroup") && TextOk(j, "chatAvailableCondition")
    && IntOk(j, "minFollowerMinute") && TextOk(j, "userAdultStatus")
    && FlagOk(j, "chatDonationRankingExposure")
  }

  predicate LiveDetailFromB(j: Json, d: LiveDetail)
  {
    FlagField(j, "chatActive", d.chatActive)
    && TextField(j, "chatAvailableGroup", d.chatAvailableGroup)
    && TextField(j, "chatAvailableCondition", d.chatAvailableCondition)
    && IntField(j, "minFollowerMinute", d.minFollowerMinute)
    && TextField(j, "userAdultStatus", d.userAdultStatus)
    && FlagField(j, "chatDonationRankingExposure", d.chatDonationRankingExposure)
  }

  predicate LiveDetailOk(j: Json)
  {
    LiveBaseOk(j) && LiveDetailOkA(j) && LiveDetailOkB(j)
  }

  /** The fields no stage reads. */
  predicate DetailExtrasKept(d: LiveDetail, e: LiveDetail)
  {
    e.p2pQuality == d.p2pQuality && e.adParameter == d.adParameter
    && e.paidPromotion == d.paidPromotion && e.livePollingStatus == d.livePollingStatus
  }

  function LiveDetailA(j: Json, d: LiveDetail): (r: Result<LiveDetail, JsonError>)
    ensures r.Success? <==> LiveDetailOkA(j)
    ensures r.Success? ==> LiveDetailFromA(j, r.value)
    ensures r.Success? && LiveBaseFrom(j, d.live.info) ==> LiveBaseFrom(j, r.value.live.info)
    ensures r.Success? ==> DetailExtrasKept(d, r.value)
  {
    var chatChannelId :- SafeText(j, "chatChannelId");
    var playback :- SafeText(j, "livePlaybackJson");
    var channel :- NestedChannelInfo(j, "channel");
    var status :- SafeText(j, "status");
    var closeDate :- SafeText(j, "closeDate");
    var clipActive :- SafeFlag(j, "clipActive");
    LiveBaseIgnoresChannel(j, d.live.info, channel);
    Success(d.(live := Live(d.live.info.(channelInfo := channel), chatChannelId, playback),
               status := status, closeDate := closeDate, clipActive := clipActive))
  }

  /** The live fields do not include the channel record. */
  lemma LiveBaseIgnoresChannel(j: Json, l: LiveInfo, channel: ChannelInfo)
    ensures LiveBaseFrom(j, l) ==> LiveBaseFrom(j, l.(channelInfo := channel))
  {
  }

  function LiveDetailB(j: Json, d: LiveDetail): (r: Result<LiveDetail, JsonError>)
    ensures r.Success? <==> LiveDetailOkB(j)
    ensures r.Success? ==> LiveDetailFromB(j, r.value)
    ensures r.Success? ==>
      && r.value.live == d.live && r.value.status == d.status
      && r.value.closeDate == d.closeDate && r.value.clipActive == d.clipActive
    ensures r.Success? ==> DetailExtrasKept(d, r.value)
  {
    var chatActive :- SafeFlag(j, "chatActive");
    var group :- SafeText(j, "chatAvailableGroup");
    var condition :- SafeText(j, "chatAvailableCondition");
    var minFollower :- SafeInt(j, "minFollowerMinute");
    var adultStatus :- SafeText(j, "userAdultStatus");
    var ranking :- SafeFlag(j, "chatDonationRankingExposure");
    Success(d.(chatActive := chatActive, chatAvailableGroup := group, chatAvailableCondition := condition,
               minFollowerMinute := minFollower, userAdultStatus := adultStatus,
               chatDonationRankingExposure := ranking))
  }

  /** `paidPromotion` and the polling record are never read: they keep their
      defaults; `adParameter` is the dump of that member when it exists. */
  function ParseLiveDetail(j: Json, dump: Json -> string): (r: Result<LiveDetail, JsonError>)
    ensures r.Success? <==> LiveDetailOk(j)
    ensures r.Success? ==> var d := r.value;
      LiveBaseFrom(j, d.live.info) && LiveDetailFromA(j, d) && LiveDetailFromB(j, d)
      && d.p2pQuality == StringList(j, "p2pQuality")
      && d.adParameter == DumpOf(j, "adParameter", dump)
      && !d.paidPromotion && d.livePollingStatus == DefaultLivePollingStatus
  {
    var base :- LiveBase(j);
    LiveDetailFields(j, base, dump)
  }

  /** The fields a live detail reads beyond the live fields. */
  function LiveDetailFields(j: Json, base: LiveInfo, dump: Json -> string): (r: Result<LiveDetail, JsonError>)
    ensures r.Success? <==> LiveDetailOkA(j) && LiveDetailOkB(j)
    ensures r.Success? ==> var d := r.value;
      && (LiveBaseFrom(j, base) ==> LiveBaseFrom(j, d.live.info))
      && LiveDetailFromA(j, d) && LiveDetailFromB(j, d)
      && d.p2pQuality == StringList(j, "p2pQuality")
      && d.adParameter == DumpOf(j, "adParameter", dump)
      && !d.paidPromotion && d.livePollingStatus == DefaultLivePollingStatus
  {
    var start := LiveDetail(Live(base, "", ""), "", "", false, false, "", false, "", 0,
                            StringList(j, "p2pQuality"), DefaultLivePollingStatus, "", false,
                            DumpOf(j, "adParameter", dump));
    var a :- LiveDetailA(j, start);
    var b :- LiveDetailB(j, a);
    LiveDetailAKept(j, a, b);
    Success(b)
  }

  /** What the second detail stage keeps is what the first read. */
  lemma LiveDetailAKept(j: Json, a: LiveDetail, b: LiveDetail)
    requires b.live == a.live && b.status == a.status && b.closeDate == a.closeDate && b.clipActive == a.clipActive
    ensures LiveDetailFromA(j, a) ==> LiveDetailFromA(j, b)
  {
  }

  // A video entry is read in two stages, the second keeping what the first
  // read.

  predicate VideoInfoOkA(j: Json)
  {
    IntOk(j, "videoNo") && TextOk(j, "videoId") && TextOk(j, "videoTitle") && TextOk(j, "videoType")
    && TextOk(j, "publishDate") && TextOk(j, "thumbnailImageUrl") && IntOk(j, "duration")
  }

  predicate VideoInfoFromA(j: Json, v: VideoInfo)
  {
    IntField(j, "videoNo", v.videoNo) && TextField(j, "videoId", v.id)
    && TextField(j, "videoTitle", v.title) && TextField(j, "videoType", v.videoType)
    && TextField(j, "publishDate", v.publishDate) && TextField(j, "thumbnailImageUrl", v.thumbnailImageUrl)
    && IntField(j, "duration", v.duration)
  }

  predicate VideoInfoOkB(j: Json)
  {
    IntOk(j, "readCount") && TextOk(j, "channelId") && IntOk(j, "publishDateAt")
    && FlagOk(j, "adult") && TextOk(j, "categoryType") && TextOk(j, "videoCategory")
    && TextOk(j, "videoCategoryValue") && TextOk(j, "blindType")
  }

  predicate VideoInfoFromB(j: Json, v: VideoInfo)
  {
    IntField(j, "readCount", v.readCount)
    && TextField(j, "channelId", v.channelId) && IntField(j, "publishDateAt", v.publishDateAt)
    && FlagField(j, "adult", v.adult) && TextField(j, "categoryType", v.categoryType)
    && TextField(j, "videoCategory", v.videoCategory)
    && TextField(j, "videoCategoryValue", v.videoCategoryValue) && TextField(j, "blindType", v.blindType)
  }

  predicate VideoInfoOk(j: Json)
  {
    VideoInfoOkA(j) && VideoInfoOkB(j)
  }

  predicate VideoInfoFrom(j: Json, v: VideoInfo)
  {
    VideoInfoFromA(j, v) && VideoInfoFromB(j, v)
  }

  function VideoInfoA(j: Json): (r: Result<VideoInfo, JsonError>)
    ensures r.Success? <==> VideoInfoOkA(j)
    ensures r.Success? ==> VideoInfoFromA(j, r.value) && r.value.channelInfo == DefaultChannelInfo
  {
    var videoNo :- SafeInt(j, "videoNo");
    var id :- SafeText(j, "videoId");
    var title :- SafeText(j, "videoTitle");
    var videoType :- SafeText(j, "videoType");
    var publishDate :- SafeText(j, "publishDate");
    var thumbnail :- SafeText(j, "thumbnailImageUrl");
    var duration :- SafeInt(j, "duration");
    Success(VideoInfo(videoNo, id, title, videoType, publishDate, thumbnail, duration, 0,
                      0, "", false, "", "", "", "", DefaultChannelInfo))
  }

  function VideoInfoB(j: Json, v: VideoInfo): (r: Result<VideoInfo, JsonError>)
    ensures r.Success? <==> VideoInfoOkB(j)
    ensures r.Success? ==> VideoInfoFromB(j, r.value) && r.value.channelInfo == v.channelInfo
    ensures r.Success? && VideoInfoFromA(j, v) ==> VideoInfoFromA(j, r.value)
  {
    var readCount :- SafeInt(j, "readCount");
    var channelId :- SafeText(j, "channelId");
    var publishDateAt :- SafeInt(j, "publishDateAt");
    var adult :- SafeFlag(j, "adult");
    var categoryType :- SafeText(j, "categoryType");
    var videoCategory :- SafeText(j, "videoCategory");
    var categoryValue :- SafeText(j, "videoCategoryValue");
    var blindType :- SafeText(j, "blindType");
    VideoInfoAKept(j, v, readCount, channelId, publishDateAt, adult, categoryType, videoCategory,
                   categoryValue, blindType);
    Success(v.(readCount := readCount, channelId := channelId, publishDateAt := publishDateAt, adult := adult,
               categoryType := categoryType, videoCategory := videoCategory,
               videoCategoryValue := categoryValue, blindType := blindType))
  }

  /** The second stage's fields are not the first's. */
  lemma VideoInfoAKept(j: Json, v: VideoInfo, readCount: int, channelId: string, publishDateAt: int, adult: bool,
                       categoryType: string, videoCategory: string, categoryValue: string, blindType: string)
    ensures VideoInfoFromA(j, v) ==>
      VideoInfoFromA(j, v.(readCount := readCount, channelId := channelId, publishDateAt := publishDateAt,
                           adult := adult, categoryType := categoryType, videoCategory := videoCategory,
                           videoCategoryValue := categoryValue, blindType := blindType))
  {
  }

  /** A video search entry leaves its channel record at the default. */
  function ParseVideoInfo(j: Json): (r: Result<VideoInfo, JsonError>)
    ensures r.Success? <==> VideoInfoOk(j)
    ensures r.Success? ==> VideoInfoFrom(j, r.value) && r.value.channelInfo == DefaultChannelInfo
  {
    var a :- VideoInfoA(j);
    VideoInfoB(j, a)
  }

  predicate VideoOk(j: Json)
  {
    NestedChannelInfo(j, "channel").Success? && FlagOk(j, "exposure") && FlagOk(j, "clipActive")
    && TextOk(j, "inKey") && TextOk(j, "liveOpenDate") && TextOk(j, "vodStatus") && TextOk(j, "userAdultStatus")
  }

  predicate VideoFrom(j: Json, v: Video)
  {
    NestedChannelInfo(j, "channel") == Success(v.info.channelInfo)
    && FlagField(j, "exposure", v.exposure) && FlagField(j, "clipActive", v.clipActive)
    && TextField(j, "inKey", v.inKey) && TextField(j, "liveOpenDate", v.liveOpenDate)
    && TextField(j, "vodStatus", v.vodStatus) && TextField(j, "userAdultStatus", v.userAdultStatus)
  }

  /** The fields a full video reads beyond its search entry. */
  function VideoFields(j: Json, v: Video): (r: Result<Video, JsonError>)
    ensures r.Success? <==> VideoOk(j)
    ensures r.Success? ==> VideoFrom(j, r.value)
    ensures r.Success? && VideoInfoFrom(j, v.info) ==> VideoInfoFrom(j, r.value.info)
    ensures r.Success? ==>
      && r.value.prevVideo == v.prevVideo && r.value.nextVideo == v.nextVideo
      && r.value.adParameter == v.adParameter && r.value.trailerUrl == v.trailerUrl
      && r.value.paidPromotion == v.paidPromotion
  {
    var channel :- NestedChannelInfo(j, "channel");
    var exposure :- SafeFlag(j, "exposure");
    var clipActive :- SafeFlag(j, "clipActive");
    var inKey :- SafeText(j, "inKey");
    var liveOpenDate :- SafeText(j, "liveOpenDate");
    var vodStatus :- SafeText(j, "vodStatus");
    var adultStatus :- SafeText(j, "userAdultStatus");
    Success(v.(info := v.info.(channelInfo := channel), exposure := exposure, clipActive := clipActive,
               inKey := inKey, liveOpenDate := liveOpenDate, vodStatus := vodStatus,
               userAdultStatus := adultStatus))
  }

  /** `trailerUrl` and `paidPromotion` are never read; the neighbouring videos
      and `adParameter` are dumps of their members when those exist. */
  function ParseVideo(j: Json, dump: Json -> string): (r: Result<Video, JsonError>)
    ensures r.Success? <==> VideoInfoOk(j) && VideoOk(j)
    ensures r.Success? ==> var v := r.value;
      VideoInfoFrom(j, v.info) && VideoFrom(j, v)
      && v.prevVideo == DumpOf(j, "prevVideo", dump) && v.nextVideo == DumpOf(j, "nextVideo", dump)
      && v.adParameter == DumpOf(j, "adParameter", dump)
      && v.trailerUrl == "" && !v.paidPromotion
  {
    var info :- ParseVideoInfo(j);
    var start := Video(info, "", false, false, false, "", "", "", DumpOf(j, "prevVideo", dump),
                       DumpOf(j, "nextVideo", dump), "", DumpOf(j, "adParameter", dump));
    VideoFields(j, start)
  }

  /** `parse_raw<T>`: the text is parsed (a malformed text is not caught and
      fails the call) and handed to the record's parse. */
  function ParseRaw<T>(codec: TextCodec, raw: string, parse: Json -> Result<T, JsonError>): (r: Result<T, JsonError>)
    ensures codec.parse(raw).None? ==> r == Failure(Malformed)
    ensures codec.parse(raw).Some? ==> r == parse(codec.parse(raw).value)
  {
    match codec.parse(raw)
    case None => Failure(Malformed)
    case Some(j) => parse(j)
  }

  /** A document without members, or null, parses to the all-default record. */
  lemma ParseEmptyDefaults(j: Json)
    requires j == Null || j == Object([])
    ensures ParseChannelInfo(j) == Success(DefaultChannelInfo)
    ensures ParseLivePollingStatus(j) == Success(DefaultLivePollingStatus)
    ensures ParseTemporaryRestrict(j) == Success(DefaultTemporaryRestrict)
    ensures ParseUserData(j) == Success(UserData(false, "", "", "", [], false, "", false, false))
  {
    EmptyChannelInfo(j);
    EmptyUserData(j);
    EmptyStatusRecords(j);
  }

  lemma EmptyStatusRecords(j: Json)
    requires j == Null || j == Object([])
    ensures ParseLivePollingStatus(j) == Success(DefaultLivePollingStatus)
    ensures ParseTemporaryRestrict(j) == Success(DefaultTemporaryRestrict)
  {
  }

  lemma EmptyChannelInfo(j: Json)
    requires j == Null || j == Object([])
    ensures ParseChannelInfo(j) == Success(DefaultChannelInfo)
  {
  }

  lemma EmptyUserData(j: Json)
    requires j == Null || j == Object([])
    ensures ParseUserData(j) == Success(UserData(false, "", "", "", [], false, "", false, false))
  {
  }

  /** A field that is absent and a field that is null read alike. */
  lemma NullLikeAbsent(j: Json, key: string)
    requires j.Object? || j.Null?
    ensures var s := Set(j, key, Null);
      SafeText(s, key) == Success("") && SafeInt(s, key) == Success(0) && SafeFlag(s, key) == Success(false)
  {
    GetSet(j, key, Null, key);
  }

  /** A present field reads as what the document holds. */
  lemma PresentFieldReadsBack(j: Json, key: string, t: string, n: int, b: bool)
    requires j.Object? || j.Null?
    ensures SafeText(Set(j, key, Str(t)), key) == Success(t)
    ensures SafeInt(Set(j, key, Number(n)), key) == Success(Int32(n))
    ensures SafeFlag(Set(j, key, Bool(b)), key) == Success(b)
  {
    GetSet(j, key, Str(t), key);
    GetSet(j, key, Number(n), key);
    GetSet(j, key, Bool(b), key);
  }
}

/** The records the metadata API is parsed into (include/chzzkpp/ChzzkTypes.h).
    A struct that inherits another holds its base as the first field. The
    structs have no member initialisers: a member the parser assigns through
    its safe getter takes the type's value-initialised default when the key
    is missing or null (empty strings and lists, zero and false). A `Default*`
    record is that all-default value. It also stands for a nested record the
    parser never assigns, whose `bool` and `int` members stay indeterminate
    in the source. */
module ApiTypes {

  datatype UserData = UserData(
    hasProfile: bool,
    userIdHash: string,
    nickname: string,
    profileImageUrl: string,
    penalties: seq<string>,
    officialNotiAgree: bool,
    officialNotiAgreeUpdatedDate: string,
    verified: bool,
    loggedIn: bool)

  datatype TemporaryRestrict = TemporaryRestrict(
    createdTime: int,
    duration: int,
    temporaryRestrict: bool,
    times: int)

  datatype AccessToken = AccessToken(
    accessToken: string,
    extraToken: string,
    realNameAuth: bool,
    temporaryRestrict: TemporaryRestrict)

  datatype FollowingInfo = FollowingInfo(
    available: bool,
    following: bool,
    notification: bool,
    followDate: string)

  datatype PersonalData = PersonalData(
    available: bool,
    followInfo: FollowingInfo,
    privateUserBlock: bool)

  datatype PaymentAvailability = PaymentAvailability(
    iapAvailability: bool,
    iabAvailability: bool)

  datatype ChannelInfo = ChannelInfo(
    id: string,
    name: string,
    imageUrl: string,
    verified: bool,
    description: string,
    followerCount: int,
    personalData: PersonalData)

  datatype Channel = Channel(
    info: ChannelInfo,
    channelType: string,
    openLive: bool,
    subscriptionAvailability: bool,
    subscriptionPaymentAvailability: PaymentAvailability,
    adMonetizationAvailability: bool,
    userAdultStatus: string)

  datatype LivePollingStatus = LivePollingStatus(
    status: string,
    isPublishing: bool,
    playableStatus: string,
    trafficThrottling: int,
    callPeriodMilliSecond: int)

  datatype LiveStatus = LiveStatus(
    title: string,
    status: string,
    concurrentUserCount: int,
    accumulatedUserCount: int,
    paidPromotion: bool,
    adult: bool,
    krOnlyViewing: bool,
    clipActive: bool,
    chatChannelId: string,
    tags: seq<string>,
    categoryType: string,
    liveCategory: string,
    liveCategoryValue: string,
    livePollingStatus: LivePollingStatus,
    faultStatus: string,
    userAdultStatus: string,
    blindType: string,
    chatActive: bool,
    chatAvailableGroup: string,
    chatAvailableCondition: string,
    minFollowerMinute: int,
    chatDonationRankingExposure: bool)

  datatype LiveInfo = LiveInfo(
    id: int,
    title: string,
    imageUrl: string,
    defaultThumbnailImageUrl: string,
    concurrentUserCount: int,
    accumulatedUserCount: int,
    openDate: string,
    adult: bool,
    tags: seq<string>,
    categoryType: string,
    liveCategory: string,
    liveCategoryValue: string,
    channelId: string,
    channelInfo: ChannelInfo,
    blindType: string)

  datatype Live = Live(
    info: LiveInfo,
    chatChannelId: string,
    livePlayback: string)

  datatype LiveDetail = LiveDetail(
    live: Live,
    status: string,
    closeDate: string,
    clipActive: bool,
    chatActive: bool,
    chatAvailableGroup: string,
    paidPromotion: bool,
    chatAvailableCondition: string,
    minFollowerMinute: int,
    p2pQuality: seq<string>,
    livePollingStatus: LivePollingStatus,
    userAdultStatus: string,
    chatDonationRankingExposure: bool,
    adParameter: string)

  datatype VideoInfo = VideoInfo(
    videoNo: int,
    id: string,
    title: string,
    videoType: string,
    publishDate: string,
    thumbnailImageUrl: string,
    duration: int,
    readCount: int,
    publishDateAt: int,
    channelId: string,
    adult: bool,
    categoryType: string,
    videoCategory: string,
    videoCategoryValue: string,
    blindType: string,
    channelInfo: ChannelInfo)

  datatype Video = Video(
    info: VideoInfo,
    trailerUrl: string,
    clipActive: bool,
    exposure: bool,
    paidPromotion: bool,
    inKey: string,
    liveOpenDate: string,
    vodStatus: string,
    prevVideo: string,
    nextVideo: string,
    userAdultStatus: string,
    adParameter: string)

  /** The header shared by every search and recommendation result. */
  datatype Page = Page(keyword: string, requestedSize: int, offset: int)

  datatype RecommendResult = RecommendResult(page: Page, lives: seq<LiveInfo>)
  datatype ChannelResult = ChannelResult(page: Page, channels: seq<ChannelInfo>)
  datatype LiveResult = LiveResult(page: Page, lives: seq<Live>)
  datatype VideoResult = VideoResult(page: Page, videos: seq<VideoInfo>)

  const DefaultTemporaryRestrict := TemporaryRestrict(0, 0, false, 0)
  const DefaultFollowingInfo := FollowingInfo(false, false, false, "")
  const DefaultPersonalData := PersonalData(false, DefaultFollowingInfo, false)
  const DefaultPaymentAvailability := PaymentAvailability(false, false)
  const DefaultChannelInfo := ChannelInfo("", "", "", false, "", 0, DefaultPersonalData)
  const DefaultLivePollingStatus := LivePollingStatus("", false, "", 0, 0)
}

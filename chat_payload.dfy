/** `parseChat` (src/ChzzkChat.cpp): the normalisation of one chat entry into
    the document handlers receive. The short keys of live messages and the
    long keys of recent messages are coalesced, `hidden` is derived from the
    status type, and the profile documents that travel as strings inside
    `extras.params` are expanded. A conversion the library refuses throws in
    the source; here it is a `Failure`. */
module ChatPayload {
  import opened Wrappers
  import opened JsonModel
  import opened ApiParse

  const RegisterJsonKey: string := "registerChatProfileJson"
  const TargetJsonKey: string := "targetChatProfileJson"
  const RegisterKey: string := "registerChatProfile"
  const TargetKey: string := "targetChatProfile"

  /** `text.empty() ? json() : json::parse(text)`. A text the library rejects
      reads as null too: that exception is not modelled. */
  function SubDocument(codec: TextCodec, text: string): Json
  {
    if text == "" then Null else codec.parse(text).GetOr(Null)
  }

  /** When expanding `extras.params` throws nothing: `extras` is null, or an
      object whose `params` is null or an object holding both profile texts
      as strings. */
  predicate ExtrasOk(extras: Json)
  {
    || extras.Null?
    || (extras.Object? &&
        var params := Get(extras, "params");
        (|| params.Null?
         || (params.Object? && Get(params, RegisterJsonKey).Str? && Get(params, TargetJsonKey).Str?)))
  }

  /** Both profile texts are there and neither is empty. */
  predicate Expands(extras: Json)
  {
    var params := Get(extras, "params");
    && params.Object?
    && Get(params, RegisterJsonKey).Str? && Get(params, RegisterJsonKey) != Str("")
    && Get(params, TargetJsonKey).Str? && Get(params, TargetJsonKey) != Str("")
  }

  /** The `params` handling of `parseChat`. Reading `extras["params"]` through
      the non-const `operator[]` adds a null `params` member to an object
      without one. */
  function ExpandParams(extras: Json, codec: TextCodec): (r: Result<Json, JsonError>)
    ensures r.Success? <==> ExtrasOk(extras)
    ensures extras.Null? ==> r == Success(Null)
    ensures r.Success? && extras.Object? ==> r.value.Object?
  {
    if extras.Null? then Success(Null)
    else
      var params :- Slot(extras, "params");
      var withParams := if Has(extras, "params") then extras else Set(extras, "params", Null);
      if params.Null? then Success(withParams)
      else if !params.Object? then Failure(NotAnObject(RegisterJsonKey))
      else
        var registerText :- ToText(Get(params, RegisterJsonKey));
        var targetText :- ToText(Get(params, TargetJsonKey));
        if registerText != "" && targetText != "" then
          var parsed := Set(Set(params, RegisterKey, SubDocument(codec, registerText)),
                            TargetKey, SubDocument(codec, targetText));
          Success(Set(withParams, "params", Erase(Erase(parsed, RegisterJsonKey), TargetJsonKey)))
        else
          Success(withParams)
  }

  /** The expansion leaves every member of `extras` but `params` as it was. */
  lemma ExpandParamsKeeps(extras: Json, codec: TextCodec, k: string)
    requires extras.Object? && ExtrasOk(extras)
    requires k != "params"
    ensures var e := ExpandParams(extras, codec).value;
      (Has(e, k) <==> Has(extras, k)) && Get(e, k) == Get(extras, k)
  {
    var withParams := if Has(extras, "params") then extras else Set(extras, "params", Null);
    GetSet(extras, "params", Null, k);
    var e := ExpandParams(extras, codec).value;
    if e != withParams {
      assert Expands(extras);
      var params := Get(extras, "params");
      var parsed := Set(Set(params, RegisterKey, SubDocument(codec, Get(params, RegisterJsonKey).s)),
                        TargetKey, SubDocument(codec, Get(params, TargetJsonKey).s));
      var p := Erase(Erase(parsed, RegisterJsonKey), TargetJsonKey);
      assert e == Set(withParams, "params", p);
      GetSet(withParams, "params", p, k);
    }
  }

  /** When both texts are non-empty, `params` holds their parsed documents
      under the new keys, the texts are gone and every other member stays. */
  lemma ExpandParamsExpands(extras: Json, codec: TextCodec, k: string)
    requires extras.Object? && Expands(extras)
    ensures ExtrasOk(extras)
    ensures var params := Get(extras, "params");
      var p := Get(ExpandParams(extras, codec).value, "params");
      && Get(p, RegisterKey) == SubDocument(codec, Get(params, RegisterJsonKey).s)
      && Get(p, TargetKey) == SubDocument(codec, Get(params, TargetJsonKey).s)
      && !Has(p, RegisterJsonKey) && !Has(p, TargetJsonKey)
      && (k != RegisterKey && k != TargetKey && k != RegisterJsonKey && k != TargetJsonKey ==>
            (Has(p, k) <==> Has(params, k)) && Get(p, k) == Get(params, k))
  {
    var params := Get(extras, "params");
    var register := SubDocument(codec, Get(params, RegisterJsonKey).s);
    var target := SubDocument(codec, Get(params, TargetJsonKey).s);
    var s1 := Set(params, RegisterKey, register);
    var s2 := Set(s1, TargetKey, target);
    var e1 := Erase(s2, RegisterJsonKey);
    var p := Erase(e1, TargetJsonKey);
    var withParams := if Has(extras, "params") then extras else Set(extras, "params", Null);
    assert ExpandParams(extras, codec).value == Set(withParams, "params", p);
    GetSet(withParams, "params", p, "params");
    forall key | key in [RegisterKey, TargetKey, RegisterJsonKey, TargetJsonKey, k]
      ensures (Has(p, key) <==> (key != TargetJsonKey && Has(e1, key)))
      ensures Get(p, key) == if key == TargetJsonKey then Null else Get(e1, key)
      ensures (Has(e1, key) <==> (key != RegisterJsonKey && Has(s2, key)))
      ensures Get(e1, key) == if key == RegisterJsonKey then Null else Get(s2, key)
      ensures (Has(s2, key) <==> (key == TargetKey || Has(s1, key)))
      ensures Get(s2, key) == if key == TargetKey then target else Get(s1, key)
      ensures (Has(s1, key) <==> (key == RegisterKey || Has(params, key)))
      ensures Get(s1, key) == if key == RegisterKey then register else Get(params, key)
    {
      GetSet(params, RegisterKey, register, key);
      GetSet(s1, TargetKey, target, key);
      GetErase(s2, RegisterJsonKey, key);
      GetErase(e1, TargetJsonKey, key);
    }
  }

  /** Otherwise `params` is left as it was. */
  lemma ExpandParamsUntouched(extras: Json, codec: TextCodec)
    requires extras.Object? && ExtrasOk(extras) && !Expands(extras)
    ensures Get(ExpandParams(extras, codec).value, "params") == Get(extras, "params")
  {
    GetSet(extras, "params", Null, "params");
  }

  /** The value under the short key, else under the long alias. */
  function Chosen(j: Json, short: string, long: string): Option<Json>
  {
    if Has(j, short) then Some(Get(j, short))
    else if Has(j, long) then Some(Get(j, long))
    else None
  }

  // What a coalesced field holds: the chosen value converted, or the default.

  predicate TextAlias(j: Json, short: string, long: string, v: string)
  {
    match Chosen(j, short, long)
    case None => v == ""
    case Some(x) => x == Str(v)
  }

  predicate IntAlias(j: Json, short: string, long: string, v: int)
  {
    match Chosen(j, short, long)
    case None => v == 0
    case Some(x) => ToInt(x) == Success(v)
  }

  predicate TimeAlias(j: Json, short: string, long: string, v: int)
  {
    match Chosen(j, short, long)
    case None => v == 0
    case Some(x) => ToUInt64(x) == Success(v)
  }

  /** When the coalesced fields convert: the chosen text fields are strings,
      the chosen member count a number or a boolean, the chosen time a number. */
  predicate FieldsOk(j: Json)
  {
    && (Chosen(j, "msg", "content").None? || Chosen(j, "msg", "content").value.Str?)
    && (Chosen(j, "mbrCnt", "memberCount").None?
        || Chosen(j, "mbrCnt", "memberCount").value.Number? || Chosen(j, "mbrCnt", "memberCount").value.Bool?)
    && (Chosen(j, "msgTime", "messageTime").None?
        || Chosen(j, "msgTime", "messageTime").value.Number?)
    && (Chosen(j, "msgStatusType", "messageStatusType").None?
        || Chosen(j, "msgStatusType", "messageStatusType").value.Str?)
  }

  /** One `if (find(short)) x = json[short]; else if (find(long)) x = json[long];`. */
  function Aliased<T>(j: Json, short: string, long: string, convert: Json -> Result<T, JsonError>, default: T)
    : Result<T, JsonError>
  {
    if Has(j, short) then convert(Get(j, short))
    else if Has(j, long) then convert(Get(j, long))
    else Success(default)
  }

  datatype ChatFields = ChatFields(message: string, memberCount: int, time: int, statusType: string)

  /** The four coalesced fields, the short key winning over the long one. */
  function ReadFields(j: Json): (r: Result<ChatFields, JsonError>)
    ensures r.Success? <==> FieldsOk(j)
    ensures r.Success? ==>
      && TextAlias(j, "msg", "content", r.value.message)
      && IntAlias(j, "mbrCnt", "memberCount", r.value.memberCount)
      && TimeAlias(j, "msgTime", "messageTime", r.value.time)
      && TextAlias(j, "msgStatusType", "messageStatusType", r.value.statusType)
  {
    var message :- Aliased(j, "msg", "content", ToText, "");
    var memberCount :- Aliased(j, "mbrCnt", "memberCount", ToInt, 0);
    var time :- Aliased(j, "msgTime", "messageTime", ToUInt64, 0);
    var statusType :- Aliased(j, "msgStatusType", "messageStatusType", ToText, "");
    Success(ChatFields(message, memberCount, time, statusType))
  }

  /** The document `parseChat` returns, `memberCount` added when non-zero. */
  function Assemble(profile: Json, extras: Json, f: ChatFields, isRecent: bool): Json
  {
    var parsed := Object([
      Member("extras", extras),
      Member("hidden", Bool(f.statusType == "HIDDEN")),
      Member("isRecent", Bool(isRecent)),
      Member("message", Str(f.message)),
      Member("profile", profile),
      Member("time", Number(f.time))]);
    if f.memberCount != 0 then Set(parsed, "memberCount", Number(f.memberCount)) else parsed
  }

  /** `parseChat`: the entry must be an object (the const `operator[]` throws
      otherwise), the expansion of `extras` and the field conversions must
      not throw. */
  function ParseChat(j: Json, isRecent: bool, codec: TextCodec): (r: Result<Json, JsonError>)
    ensures r.Success? <==> j.Object? && ExtrasOk(SubDocument(codec, StringOr(Get(j, "extras")))) && FieldsOk(j)
    ensures !j.Object? ==> r == Failure(NotAnObject("profile"))
    ensures r.Success? ==> r.value.Object?
  {
    if !j.Object? then Failure(NotAnObject("profile"))
    else
      var profile := SubDocument(codec, StringOr(Get(j, "profile")));
      var extras :- ExpandParams(SubDocument(codec, StringOr(Get(j, "extras"))), codec);
      var f :- ReadFields(j);
      Success(Assemble(profile, extras, f, isRecent))
  }

  /** The keys of the assembled document differ in length or first character. */
  lemma PayloadKeysDiffer()
    ensures "extras" != "hidden" && "message" != "profile"
  {
    assert "extras"[0] == 'e' && "hidden"[0] == 'h';
    assert "message"[0] == 'm' && "profile"[0] == 'p';
  }

  /** What each key of the assembled document holds. */
  lemma AssembleFields(profile: Json, extras: Json, f: ChatFields, isRecent: bool)
    ensures var a := Assemble(profile, extras, f, isRecent);
      && Get(a, "extras") == extras
      && Get(a, "hidden") == Bool(f.statusType == "HIDDEN")
      && Get(a, "isRecent") == Bool(isRecent)
      && Get(a, "message") == Str(f.message)
      && Get(a, "profile") == profile
      && Get(a, "time") == Number(f.time)
      && (Has(a, "memberCount") <==> f.memberCount != 0)
      && (f.memberCount != 0 ==> Get(a, "memberCount") == Number(f.memberCount))
  {
    var parsed := Object([
      Member("extras", extras),
      Member("hidden", Bool(f.statusType == "HIDDEN")),
      Member("isRecent", Bool(isRecent)),
      Member("message", Str(f.message)),
      Member("profile", profile),
      Member("time", Number(f.time))]);
    PayloadKeysDiffer();
    GetMember(parsed, 0); GetMember(parsed, 1); GetMember(parsed, 2);
    GetMember(parsed, 3); GetMember(parsed, 4); GetMember(parsed, 5);
    GetAbsent(parsed, "memberCount");
    if f.memberCount != 0 {
      var m := Number(f.memberCount);
      GetSet(parsed, "memberCount", m, "extras"); GetSet(parsed, "memberCount", m, "hidden");
      GetSet(parsed, "memberCount", m, "isRecent"); GetSet(parsed, "memberCount", m, "message");
      GetSet(parsed, "memberCount", m, "profile"); GetSet(parsed, "memberCount", m, "time");
      GetSet(parsed, "memberCount", m, "memberCount");
    }
  }

  /** A parsed entry echoes `isRecent` and carries the profile and the
      expanded extras. */
  lemma ParseChatCarries(j: Json, isRecent: bool, codec: TextCodec)
    requires ParseChat(j, isRecent, codec).Success?
    ensures var p := ParseChat(j, isRecent, codec).value;
      && Get(p, "isRecent") == Bool(isRecent)
      && Get(p, "profile") == SubDocument(codec, StringOr(Get(j, "profile")))
      && Get(p, "extras") == ExpandParams(SubDocument(codec, StringOr(Get(j, "extras"))), codec).value
  {
    var profile := SubDocument(codec, StringOr(Get(j, "profile")));
    var extras := ExpandParams(SubDocument(codec, StringOr(Get(j, "extras"))), codec).value;
    AssembleFields(profile, extras, ReadFields(j).value, isRecent);
  }

  /** The text and the time come from the short key when it is there, else
      from the long one, else they are empty and zero. */
  lemma ParseChatCoalesces(j: Json, isRecent: bool, codec: TextCodec)
    requires ParseChat(j, isRecent, codec).Success?
    ensures var p := ParseChat(j, isRecent, codec).value;
      && Get(p, "message").Str? && TextAlias(j, "msg", "content", Get(p, "message").s)
      && Get(p, "time").Number? && TimeAlias(j, "msgTime", "messageTime", Get(p, "time").n)
  {
    var profile := SubDocument(codec, StringOr(Get(j, "profile")));
    var extras := ExpandParams(SubDocument(codec, StringOr(Get(j, "extras"))), codec).value;
    AssembleFields(profile, extras, ReadFields(j).value, isRecent);
  }

  /** `hidden` is true exactly when the status type reads `HIDDEN`. */
  lemma ParseChatHidden(j: Json, isRecent: bool, codec: TextCodec)
    requires ParseChat(j, isRecent, codec).Success?
    ensures var p := ParseChat(j, isRecent, codec).value;
      && Get(p, "hidden").Bool?
      && (Get(p, "hidden") == Bool(true) <==> TextAlias(j, "msgStatusType", "messageStatusType", "HIDDEN"))
  {
    var profile := SubDocument(codec, StringOr(Get(j, "profile")));
    var extras := ExpandParams(SubDocument(codec, StringOr(Get(j, "extras"))), codec).value;
    AssembleFields(profile, extras, ReadFields(j).value, isRecent);
  }

  /** `memberCount` is there exactly when the count is not zero, and then it
      is the coalesced count. */
  lemma ParseChatMemberCount(j: Json, isRecent: bool, codec: TextCodec)
    requires ParseChat(j, isRecent, codec).Success?
    ensures var p := ParseChat(j, isRecent, codec).value;
      && (Has(p, "memberCount") <==> !IntAlias(j, "mbrCnt", "memberCount", 0))
      && (Has(p, "memberCount") ==>
            Get(p, "memberCount").Number? && IntAlias(j, "mbrCnt", "memberCount", Get(p, "memberCount").n))
  {
    var profile := SubDocument(codec, StringOr(Get(j, "profile")));
    var extras := ExpandParams(SubDocument(codec, StringOr(Get(j, "extras"))), codec).value;
    AssembleFields(profile, extras, ReadFields(j).value, isRecent);
  }
}

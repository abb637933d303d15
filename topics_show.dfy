/**
 * The `CategoryAccessGuideTopicsController#show` patch: when the host's
 * `TopicsController#show` denies access, look the topic's category up in the
 * `category_access_map` site setting and, for a mapped category, raise a
 * `CustomInvalidAccess` that carries the guide URL instead.
 */
module TopicsShowPatch {
  import opened Wrappers
  import opened RubyText
  import opened AccessErrors

  /** The one column of a topic row the patch reads. */
  datatype Topic = Topic(categoryId: Option<int>)

  /** What `JSON.parse` returns: a Hash (keys and values as text) or any other value. */
  datatype Json = JsonObject(members: map<string, string>) | JsonOther

  /** `JSON.parse`; None stands for a raised `JSON::ParserError`. */
  type JsonParser = string -> Option<Json>

  /** How the host's `show` ended: it returned a response, or it raised. */
  datatype ShowResult<R> = Returned(value: R) | Raised(error: Exception)

  /** The I18n key of the guide message; also the exception's message. */
  const ErrorMessageKey := "error_message"

  /** The text used when the setting is nil (`SiteSetting.category_access_map || "{}"`). */
  const EmptyMapText := "{}"

  /** ActiveSupport's `Numeric#blank?`: an Integer is never blank. */
  predicate IntegerBlank(n: int): (b: bool)
    ensures !b
  {
    false
  }

  /** The setting text handed to `JSON.parse`: "{}" only for a nil setting; an empty text stays empty. */
  function MapText(setting: Option<string>): (text: string)
    ensures setting.None? ==> text == EmptyMapText
    ensures setting.Some? ==> text == setting.value
  {
    setting.GetOr(EmptyMapText)
  }

  /** The decimal key under which the access map is searched for a category: it reads back as that id. */
  function CategoryKey(categoryId: int): (key: string)
    ensures ToI(key) == categoryId
    ensures key != [] && (categoryId < 0 <==> key[0] == '-')
    // the canonical decimal text: no padding zero, so "05" is never the key of 5
    ensures categoryId >= 0 ==> AllDigits(key) && (|key| > 1 ==> key[0] != '0')
    ensures categoryId < 0 ==> |key| > 1 && AllDigits(key[1..]) && key[1] != '0'
  {
    ToIOfIntToS(categoryId);
    IntToS(categoryId)
  }

  /** The exception raised for a category whose guide URL is `url`. */
  function GuideError(url: string): (e: CustomInvalidAccess)
    ensures e.message == Some(ErrorMessageKey)
    ensures e.customMessage == Some(ErrorMessageKey)
    ensures e.customMessageParams == Some(map["url" := url])
    ensures e.htmlSafe == Some(true)
  {
    NewCustomInvalidAccess(
      Some(ErrorMessageKey),
      Some(InitOpts(Some(ErrorMessageKey), Some(map["url" := url]), Some(true))))
  }

  /** The topic is known, belongs to a category, and the parsed map is a Hash holding that category's key. */
  predicate Guided(topicId: int, topics: map<int, Topic>, doc: Option<Json>) {
    && topicId in topics
    && topics[topicId].categoryId.Some?
    && doc.Some? && doc.value.JsonObject?
    && CategoryKey(topics[topicId].categoryId.value) in doc.value.members
  }

  /**
   * The rescue clause of the patched `show`: what it raises once the original
   * raised `Discourse::InvalidAccess`. It always raises.
   */
  function DenialFor(topicIdParam: Option<string>, topics: map<int, Topic>,
                     setting: Option<string>, parse: JsonParser): (e: Exception)
    // an unknown topic (a missing parameter reads as topic 0) keeps the plain denial, before the setting is read
    ensures ParamToI(topicIdParam) !in topics ==> e == PlainInvalidAccess
    // a setting that does not parse makes the error propagate, whatever the category
    ensures ParamToI(topicIdParam) in topics && parse(MapText(setting)).None? ==> e == ParserError
    // a topic without a category keeps the plain denial once the setting parses
    ensures (&& ParamToI(topicIdParam) in topics
             && topics[ParamToI(topicIdParam)].categoryId.None?
             && parse(MapText(setting)).Some?) ==> e == PlainInvalidAccess
    // the guide exception is raised exactly for a mapped category, with that category's URL
    ensures e.Custom? <==> Guided(ParamToI(topicIdParam), topics, parse(MapText(setting)))
    ensures e.Custom? ==>
              var c := topics[ParamToI(topicIdParam)].categoryId.value;
              e.error == GuideError(parse(MapText(setting)).value.members[CategoryKey(c)])
    // a mapped category meets a parsed value that is not a Hash: `key?` raises NoMethodError
    ensures (&& ParamToI(topicIdParam) in topics
             && topics[ParamToI(topicIdParam)].categoryId.Some?
             && parse(MapText(setting)) == Some(JsonOther)) ==> e == NoMethodError("key?")
    // an unmapped category of a Hash map keeps the plain denial
    ensures (&& ParamToI(topicIdParam) in topics
             && parse(MapText(setting)).Some?
             && parse(MapText(setting)).value.JsonObject?
             && !Guided(ParamToI(topicIdParam), topics, parse(MapText(setting)))) ==> e == PlainInvalidAccess
    // a denial re-raised by the patch never carries the original exception's message
    ensures e.InvalidAccess? ==> e == PlainInvalidAccess
  {
    var topicId := ParamToI(topicIdParam);
    if IntegerBlank(topicId) then PlainInvalidAccess
    else if topicId !in topics then PlainInvalidAccess
    else
      var categoryId := topics[topicId].categoryId;
      match parse(MapText(setting))
      case None => ParserError
      case Some(doc) =>
        match categoryId
        case None => PlainInvalidAccess
        case Some(c) =>
          match doc
          case JsonOther => NoMethodError("key?")
          case JsonObject(accessMap) =>
            if CategoryKey(c) in accessMap then Custom(GuideError(accessMap[CategoryKey(c)]))
            else PlainInvalidAccess
  }

  /**
   * The patched `TopicsController#show`: only `Discourse::InvalidAccess` from the
   * original is intercepted; a response or any other exception passes through.
   */
  function TopicsShow<R>(original: ShowResult<R>, topicIdParam: Option<string>, topics: map<int, Topic>,
                         setting: Option<string>, parse: JsonParser): (r: ShowResult<R>)
    ensures original.Returned? ==> r == original
    ensures original.Raised? && !original.error.InvalidAccess? ==> r == original
    ensures original.Raised? && original.error.InvalidAccess? ==>
              r == Raised(DenialFor(topicIdParam, topics, setting, parse))
  {
    match original
    case Raised(InvalidAccess(_)) => Raised(DenialFor(topicIdParam, topics, setting, parse))
    case _ => original
  }

  /**
   * Only the entry keyed by the topic's own category matters: adding an entry
   * for any other category (its parent included) changes nothing.
   */
  lemma OtherCategoryEntryIgnored(topicIdParam: Option<string>, topics: map<int, Topic>,
                                  setting: Option<string>, parse: JsonParser, parse': JsonParser,
                                  accessMap: map<string, string>, other: int, url: string)
    requires ParamToI(topicIdParam) in topics
    requires topics[ParamToI(topicIdParam)].categoryId != Some(other)
    requires parse(MapText(setting)) == Some(JsonObject(accessMap))
    requires parse'(MapText(setting)) == Some(JsonObject(accessMap[CategoryKey(other) := url]))
    ensures DenialFor(topicIdParam, topics, setting, parse) == DenialFor(topicIdParam, topics, setting, parse')
  {
    var category := topics[ParamToI(topicIdParam)].categoryId;
    if category.Some? {
      var key := CategoryKey(category.value);
      IntToSInjective(category.value, other);
      assert key != CategoryKey(other);
      assert (key in accessMap) == (key in accessMap[CategoryKey(other) := url]);
      assert key in accessMap ==> accessMap[key] == accessMap[CategoryKey(other) := url][key];
    }
  }

  /** The topic id written in decimal reaches the lookup unchanged. */
  lemma TopicIdFromDecimalParam(id: int)
    ensures ParamToI(Some(IntToS(id))) == id
  {
    ToIOfIntToS(id);
  }
}

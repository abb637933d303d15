/**
 * The plugin end to end: a denied topic page, the `show` patch, the
 * `rescue_from` handler and `rescue_discourse_actions`, composed.
 */
module AccessGuide {
  import opened Wrappers
  import opened RubyText
  import opened AccessErrors
  import opened TopicsShowPatch
  import opened RescueActionsPatch

  /** The guide message as the user sees it: "error_message" interpolated with the URL, marked safe. */
  function GuideText(t: Translator, url: string): Text {
    Text(t(ErrorMessageKey, map["url" := url]), true)
  }

  /**
   * A denied topic whose category is mapped to `url` ends as a 403 that shows
   * the guide message: a JSON error of type "custom_invalid_access" for a JSON
   * request, otherwise an access page titled with the message (or plain text
   * when the session setup itself denies access).
   */
  lemma MappedTopicShowsGuide<R>(message: Option<string>, topicIdParam: Option<string>, topics: map<int, Topic>,
                                 setting: Option<string>, parse: JsonParser, accessMap: map<string, string>,
                                 req: Request, env: Env)
    requires ParamToI(topicIdParam) in topics
    requires topics[ParamToI(topicIdParam)].categoryId.Some?
    requires parse(MapText(setting)) == Some(JsonObject(accessMap))
    requires CategoryKey(topics[ParamToI(topicIdParam)].categoryId.value) in accessMap
    ensures var url := accessMap[CategoryKey(topics[ParamToI(topicIdParam)].categoryId.value)];
            var shown := TopicsShow<R>(Raised(InvalidAccess(message)), topicIdParam, topics, setting, parse);
            && shown == Raised(Custom(GuideError(url)))
            && var r := HandleCustomInvalidAccess(GuideError(url), req, env);
               && (ShowJsonErrors(req) ==>
                     && r.JsonError? && r.errorType == CustomInvalidAccessType && r.status == ForbiddenStatus
                     && r.message == GuideText(env.t, url))
               && (!ShowJsonErrors(req) && env.setup.SetupOk? ==>
                     && r.HtmlPage? && r.page.status == ForbiddenStatus && r.page.customInvalidAccess
                     && r.page.title == Some(GuideText(env.t, url)))
               && (!ShowJsonErrors(req) && env.setup.SetupRaised? && env.setup.error.InvalidAccess? ==>
                     r == PlainText(GuideText(env.t, url), ForbiddenStatus))
  {
    var url := accessMap[CategoryKey(topics[ParamToI(topicIdParam)].categoryId.value)];
    assert Guided(ParamToI(topicIdParam), topics, parse(MapText(setting)));
    assert DenialFor(topicIdParam, topics, setting, parse) == Custom(GuideError(url));
    CustomMessageShown(GuideError(url), req, env);
  }

  /** Topic 42 in category 5, with the map {"5": url}: the guide for category 5. */
  lemma TopicInMappedCategory(setting: Option<string>, parse: JsonParser, url: string)
    requires parse(MapText(setting)) == Some(JsonObject(map["5" := url]))
    ensures DenialFor(Some("42"), map[42 := Topic(Some(5))], setting, parse) == Custom(GuideError(url))
  {
    var topics := map[42 := Topic(Some(5))];
    assert IntToS(42) == "42";
    TopicIdFromDecimalParam(42);
    assert CategoryKey(5) == "5";
    assert Guided(ParamToI(Some("42")), topics, parse(MapText(setting)));
  }

  /** Keys are compared as text: "05" is not the key of category 5. */
  lemma PaddedKeyDoesNotMatch(setting: Option<string>, parse: JsonParser, url: string)
    requires parse(MapText(setting)) == Some(JsonObject(map["05" := url]))
    ensures DenialFor(Some("42"), map[42 := Topic(Some(5))], setting, parse) == PlainInvalidAccess
  {
    var topics := map[42 := Topic(Some(5))];
    assert IntToS(42) == "42";
    TopicIdFromDecimalParam(42);
    assert CategoryKey(5) == "5";
    assert !Guided(ParamToI(Some("42")), topics, parse(MapText(setting)));
  }

  /** The map {} leaves every topic, whatever its category, with the plain denial. */
  lemma EmptyMapKeepsDefaultDenial(topicIdParam: Option<string>, topics: map<int, Topic>,
                                   setting: Option<string>, parse: JsonParser)
    requires parse(MapText(setting)) == Some(JsonObject(map[]))
    ensures DenialFor(topicIdParam, topics, setting, parse) == PlainInvalidAccess
  {
    assert !Guided(ParamToI(topicIdParam), topics, parse(MapText(setting)));
  }

  /** A missing `topic_id` is read as topic 0, exactly like the parameter "0". */
  lemma MissingTopicIdIsTopicZero(topics: map<int, Topic>, setting: Option<string>, parse: JsonParser)
    ensures DenialFor(None, topics, setting, parse) == DenialFor(Some("0"), topics, setting, parse)
  {
    assert SkipSpace("0") == "0";
    assert ParamToI(Some("0")) == 0 == ParamToI(None);
  }

  /**
   * A nil setting is parsed as the text "{}"; whether an empty setting is
   * malformed is up to the parser, and a parse failure is never read as {}.
   */
  lemma NilSettingParsedAsEmptyObject(topicIdParam: Option<string>, topics: map<int, Topic>, parse: JsonParser)
    requires parse(EmptyMapText) == Some(JsonObject(map[]))
    ensures DenialFor(topicIdParam, topics, None, parse) == PlainInvalidAccess
  {
    EmptyMapKeepsDefaultDenial(topicIdParam, topics, None, parse);
  }
}

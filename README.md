# discourse-category-access-guide, modelled in Dafny

The plugin changes what a Discourse forum shows when a user is denied a topic.
If the topic's category has an entry in the `category_access_map` site setting
(a JSON object from decimal category ids to guide URLs), the plugin raises
`CustomInvalidAccess`. That exception carries the `error_message` translation
key and the URL. A `rescue_from` handler then turns it into a 403. The 403 is
a JSON error for JSON or XHR requests. Otherwise it is an "access denied" page
titled with the guide message, or plain text when the session cannot be set up.

The model covers the decision logic of `plugin.rb`:

- `wrappers.dfy` (`Wrappers`): `Option`, Ruby's nil.
- `ruby_text.dfy` (`RubyText`): the Ruby conversions the decisions depend on.
  These are `String#to_i`, `nil.to_i`, `Integer#to_s` and `String#end_with?`.
  It also proves that `n.to_s.to_i == n`.
- `access_errors.dfy` (`AccessErrors`): `CustomInvalidAccess#initialize` and the
  exceptions that can leave the patched `show`.
- `topics_show.dfy` (`TopicsShowPatch`): the patched `TopicsController#show`.
- `rescue_actions.dfy` (`RescueActionsPatch`): the `rescue_from` handler and the
  `rescue_discourse_actions` override, as a pure decision to a `Response` value.
- `not_found_page.dfy` (`NotFoundPagePatch`): `build_not_found_page`. It is a
  method on a controller class whose fields are the instance variables it sets.
  A second method runs the handler on that controller.
- `access_guide.dfy` (`AccessGuide`): the pieces composed end to end, plus
  concrete scenarios.

Host services are parameters:
- the topics table is a `map<int, Topic>`;
- the setting is an `Option<string>`;
- `JSON.parse` is a function that returns `None` for `JSON::ParserError`;
- `I18n.t` is an uninterpreted `Translator`;
- `Permalink.find_by_url` is a function;
- `current_user; handle_theme` is a `SessionSetup` outcome;
- `current_user` inside `build_not_found_page` is a `UserLookup`.

## Behaviour of plugin.rb to note

- Only the key made from the topic's own `category_id` is consulted; there is
  no parent-category lookup (plugin.rb:59-63).
  `TopicsShowPatch.OtherCategoryEntryIgnored` proves that an entry for any
  other category never changes the outcome.
- `|| "{}"` replaces only a nil setting. A setting that does not parse raises
  `JSON::ParserError`, which propagates (plugin.rb:60). The parse happens before
  the `category_id.present?` test, so the error propagates even for a topic
  without a category. A setting that parses to something other than a Hash
  raises `NoMethodError` from `key?` when the category is present (plugin.rb:62).
- Only the `show` action of `TopicsController` is patched. This file has no
  category-level permission hook.
- A JSON error's message is the translated custom message, not the
  "access_denied" title. Its body is `{type, status}`, and `extras` is added
  only for `topics#show` and `categories#find_by_slug` (plugin.rb:136-153).
- JSON is chosen by `request.format.json?`, `request.xhr?` or an `external_id`
  parameter ending in ".json" (plugin.rb:100-102).
- When `current_user` or `handle_theme` raises `InvalidAccess` before an HTML
  page, the response is plain text with the same status. Any other error from
  them propagates (plugin.rb:155-161). Only the `current_user` call inside
  `build_not_found_page` swallows every `StandardError` (plugin.rb:183-188).
- The handler forwards the exception's `html_safe` attribute (plugin.rb:84),
  but `rescue_discourse_actions` never reads `opts[:html_safe]`, so it has no
  effect. A custom message is always marked `html_safe` (plugin.rb:122).
  `RescueActionsPatch.HtmlSafeAttributeIgnored` states this.

## Model

| member | source | states |
|---|---|---|
| `AccessErrors.NewCustomInvalidAccess` | plugin.rb:17-25 | the exception keeps the message; its three readers give back exactly the options hash it was given, and a nil hash reads back as `{}` |
| `AccessErrors.NilOptsAreEmptyOpts` | plugin.rb:17-20 | constructing with nil options and with `{}` gives the same exception |
| `RubyText.SkipSpace` | plugin.rb:47 | the text `to_i` reads after its leading whitespace: a suffix of the input, not starting with whitespace, preceded only by whitespace |
| `RubyText.NatToS` | plugin.rb:62-63 | `Integer#to_s` of a natural number is a non-empty run of decimal digits with no leading zero |
| `RubyText.ScanNatToS` | plugin.rb:47 | scanning the digits of `n` gives back `n` |
| `RubyText.ToIOfIntToS` | plugin.rb:47 | `n.to_s.to_i == n` for every integer, negative ones included |
| `RubyText.IntToSInjective` | plugin.rb:62-63 | two different category ids never share an access-map key |
| `RubyText.EndsWith` | plugin.rb:102 | `s.end_with?(x)` holds exactly when `s` is some text followed by `x` |
| `RubyText.ToI` | plugin.rb:47 | `String#to_i` never fails; text that is empty after its leading whitespace reads as 0, a negative result needs a leading '-', and a positive one a leading '+' or digit |
| `RubyText.ParamToI` | plugin.rb:47 | a missing parameter reads as 0 (`nil.to_i`); a present one is read with `String#to_i` |
| `RubyText.IntToS` | plugin.rb:62-63 | `Integer#to_s` writes a natural number as digits with no leading zero, and a negative one as '-' followed by such digits |
| `TopicsShowPatch.IntegerBlank` | plugin.rb:49-51 | `blank?` is never true for an Integer, so the guard at plugin.rb:49-51 never raises |
| `TopicsShowPatch.MapText` | plugin.rb:60 | the text handed to `JSON.parse` is "{}" for a nil setting and the setting itself otherwise, an empty setting included |
| `TopicsShowPatch.CategoryKey` | plugin.rb:62 | the access-map key of a category reads back as that category's id and starts with '-' exactly for a negative id; it is the canonical `Integer#to_s` text, digits with no padding zero after an optional '-' |
| `TopicsShowPatch.GuideError` | plugin.rb:63-69 | the raised exception has message and `custom_message` "error_message", params `{url: url}` and `html_safe` true |
| `TopicsShowPatch.DenialFor` | plugin.rb:47-72 | once the original raised `InvalidAccess`: an unknown topic id gives the plain denial without reading the setting; a setting that fails to parse raises `ParserError`; a topic without a category, or with a category the parsed Hash does not hold, keeps the plain denial; a category met by a parsed value that is not a Hash raises `NoMethodError` from `key?`; the guide exception is raised exactly when the decimal key of the topic's category is in the parsed Hash, and it carries that entry's URL |
| `TopicsShowPatch.TopicsShow` | plugin.rb:43-46 | a successful `show` and any exception other than `InvalidAccess` pass through unchanged; `InvalidAccess` is replaced by what `DenialFor` raises |
| `TopicsShowPatch.OtherCategoryEntryIgnored` | plugin.rb:59-63 | adding a map entry for any category other than the topic's own, its parent included, does not change the outcome |
| `TopicsShowPatch.TopicIdFromDecimalParam` | plugin.rb:47 | a decimal `topic_id` parameter reaches the topic lookup as the id it spells |
| `RescueActionsPatch.ShowJsonErrors` | plugin.rb:100-102 | a JSON format, an XHR request or an `external_id` ending in ".json" each suffice for a JSON error; with none of them, a missing `external_id` included, the error is not JSON |
| `RescueActionsPatch.WantsExtras` | plugin.rb:140-144 | `extras` are wanted exactly for the controller/action pairs `topics#show` and `categories#find_by_slug` |
| `RescueActionsPatch.PermalinkTarget` | plugin.rb:104-117 | no redirect unless the type is `:not_found` and `check_permalinks` is set; otherwise a permalink found for `original_path`, or else for the request path, is redirected to exactly when it has a target URL, and the redirect goes to that URL |
| `RescueActionsPatch.HeadingFor` | plugin.rb:119-130 | with a custom message, title and message are the same html-safe interpolated translation; without one, the message is the type's translation and the title is "access_denied" for every status |
| `RescueActionsPatch.ErrorPageOpts` | plugin.rb:133-134 | the error page options always carry `custom_invalid_access: true`, the title, the status and the group |
| `RescueActionsPatch.RescueDiscourseActions` | plugin.rb:94-169 | every type except `:custom_invalid_access` is delegated with nil opts replaced by `{}`; the custom type is never delegated and never redirected to a permalink; it gives a JSON error exactly when the request asks for JSON, carrying the type, status and message, with `extras` exactly for `topics#show` and `categories#find_by_slug`; otherwise an HTML page with the heading's title and the status when the session setup succeeds, plain text with the message and status when it raises `InvalidAccess`, and that error propagated when it raises anything else |
| `RescueActionsPatch.ForwardedOpts` | plugin.rb:81-85 | the handler's options hold the exception's `custom_message`, `custom_message_params` and `html_safe` and nothing else |
| `RescueActionsPatch.HandleCustomInvalidAccess` | plugin.rb:80-87 | a `CustomInvalidAccess` is never delegated; its JSON error has type `:custom_invalid_access` and status 403, and its plain text and HTML page have status 403 |
| `RescueActionsPatch.HtmlSafeAttributeIgnored` | plugin.rb:119-122 | the response does not depend on the exception's `html_safe` attribute |
| `RescueActionsPatch.CustomMessageShown` | plugin.rb:121-165 | a custom message appears as the same html-safe text in the JSON message, the extras page title, the plain text and the HTML page title |
| `NotFoundPagePatch.UserOrNil` | plugin.rb:183-188 | the current user is kept when it resolves; an error gives nil |
| `NotFoundPagePatch.AccessPageFields` | plugin.rb:177-188 | the access page has no topics partial, search hidden, "access_denied" as page title, the given title or else "access_denied" as title, and the resolved current user |
| `NotFoundPagePatch.PageBuiltFor` | plugin.rb:145-165 | a page is built for an HTML response and for a JSON error with extras, and for nothing else |
| `NotFoundPagePatch.NotFoundPageController.BuildNotFoundPage` | plugin.rb:175-195 | with `custom_invalid_access` the controller fields become the access page's and the not-found template is rendered with the given status and layout; without it the host's page is built and the patch changes no field |
| `NotFoundPagePatch.NotFoundPageController.RescueCustomInvalidAccess` | plugin.rb:136-166 | the handler's response, and when it builds a page, the not-found template rendered with status 403 and the layout of the options it was built from ("no_ember" or the host's layout for an HTML page, none for the extras), with the controller fields of the access page; otherwise no field changes |
| `AccessGuide.MappedTopicShowsGuide` | plugin.rb:59-69 | a denied topic whose category is mapped ends as a 403 showing the guide message: a JSON error of type `:custom_invalid_access`, an HTML page titled with the message, or plain text when the session setup raises any `InvalidAccess` |
| `AccessGuide.TopicInMappedCategory` | plugin.rb:59-69 | topic "42" in category 5 with the map {"5": url} raises the guide exception for that url |
| `AccessGuide.PaddedKeyDoesNotMatch` | plugin.rb:62 | the key "05" does not match category 5 |
| `AccessGuide.EmptyMapKeepsDefaultDenial` | plugin.rb:60-72 | with the map {} every topic, with any category or none, keeps the plain denial |
| `AccessGuide.MissingTopicIdIsTopicZero` | plugin.rb:47-57 | a missing `topic_id` behaves exactly like the parameter "0" |
| `AccessGuide.NilSettingParsedAsEmptyObject` | plugin.rb:60 | a nil setting is parsed as "{}" and, when that parses to an empty Hash, the plain denial is kept |

## Left out

- The boot-time read of `discourse_category_access_guide_enabled` (plugin.rb:9, 12) is not modelled. The model describes the patches that are installed when the flag is on. `build_not_found_page` is installed either way, and without `custom_invalid_access` it only defers to the host.
- The unused `DiscourseCategoryAccessGuide::ApplicationController` (plugin.rb:29-39) and the `prepend` and `rescue_from` registrations are framework wiring. config/routes.rb is routing glue and is not modelled.
- `render`, `render_to_string`, `render_json_error`, `redirect_with_client_support`, templates and layouts are represented only as `Response` and `Page` values. The HTML of a page is represented by the options it is built from.
- `I18n.t` is an uninterpreted function, and HTML escaping is not modelled. `with_resolved_locale` is locale plumbing and is not modelled.
- The value `set_layout` returns is not modelled. Only the choice between it and "no_ember" is.
- `JSON.parse` is a parameter. The values of the parsed Hash are modelled as text, so a non-string JSON value is not distinguished from its text.
- `params[:external_id]` is modelled as a String or nil. An Array or Hash parameter (`?external_id[]=x`) is not modelled. For it, `ends_with?` would raise `NoMethodError`, which would propagate instead of the 403.
- `params[:topic_id]` is modelled as a String or nil. An Array or Hash parameter, whose `to_i` would raise, is not modelled.
- `Discourse::InvalidAccess` is modelled with its message only. Its other fields, and subclasses that the `rescue` would also match, are not modelled.
- What the host's own `build_not_found_page` does to controller fields is not part of this model. The patch itself changes none of them on that path.
- `current_user` inside `build_not_found_page` and the session setup before an HTML page are independent parameters. The model does not tie the two calls' results together.
- `String#to_i` is modelled for base 10: whitespace, sign, an optional "0d" prefix, and digits with single underscores. Nothing else of Ruby's integer parsing is modelled.

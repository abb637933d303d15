/**
 * The `CustomApplicationControllerPatch` handler and the
 * `CustomRescueDiscourseActionsPatch#rescue_discourse_actions` override: how a
 * `CustomInvalidAccess` becomes a 403 response (a JSON error, an HTML access
 * page, or plain text), and how every other error type is left to the host.
 */
module RescueActionsPatch {
  import opened Wrappers
  import opened RubyText
  import opened AccessErrors

  const CustomInvalidAccessType := "custom_invalid_access"
  const NotFoundType := "not_found"
  const AccessDeniedKey := "access_denied"
  const ForbiddenStatus := 403

  /** `I18n.t(key, params)`, left uninterpreted. */
  type Translator = (string, Params) -> string

  /** A string, and whether it has been marked `html_safe`. */
  datatype Text = Text(content: string, htmlSafe: bool)

  /** The options hash of `rescue_discourse_actions`; a key the hash does not hold reads as nil or false. */
  datatype ActionOpts = ActionOpts(
    customMessage: Option<string>,
    customMessageParams: Option<Params>,
    htmlSafe: Option<bool>,
    checkPermalinks: bool,
    originalPath: Option<string>,
    group: Option<string>,
    includeEmber: bool)

  /** The empty hash `{}`. */
  const NoActionOpts := ActionOpts(None, None, None, false, None, None, false)

  /** What the decision reads from the request. */
  datatype Request = Request(
    format: Option<string>,     // the symbol of `request.format`, when there is one
    xhr: bool,                  // `request.xhr?`
    externalId: Option<string>, // `params[:external_id]`
    controller: Option<string>, // `request.params[:controller]`
    action: Option<string>,     // `request.params[:action]`
    fullpath: string)           // `request.fullpath`

  /** A row of the permalinks table. */
  datatype Permalink = Permalink(targetUrl: Option<string>)

  /** How `current_user; handle_theme` ended before an HTML page is rendered. */
  datatype SessionSetup = SetupOk | SetupRaised(error: Exception)

  /** The collaborators the decision consults. */
  datatype Env = Env(
    t: Translator,                              // I18n.t
    findPermalink: string -> Option<Permalink>, // Permalink.find_by_url
    setup: SessionSetup,                        // current_user; handle_theme
    preloaded: bool)                            // @_preloaded

  /** `set_layout` (the controller's own layout) or the "no_ember" layout. */
  datatype Layout = ControllerLayout | NoEmberLayout

  /** The options hash handed to `build_not_found_page`. */
  datatype PageOpts = PageOpts(
    title: Option<Text>,
    status: int,
    group: Option<string>,
    customInvalidAccess: bool,
    layout: Option<Layout>)

  /** The `extras` of a JSON error; `html` is the page built from those options. */
  datatype Extras = Extras(title: Text, html: PageOpts, group: Option<string>)

  /** The title and the message of a denial. */
  datatype Heading = Heading(title: Text, message: Text)

  /** What `rescue_discourse_actions` does with the request. */
  datatype Response =
    | Delegated(errorType: string, status: int, opts: ActionOpts)  // `super`: the host's own handling
    | PermalinkRedirect(url: string)                          // 301 to a permalink's target
    | JsonError(message: Text, errorType: string, status: int, extras: Option<Extras>)
    | PlainText(message: Text, status: int)
    | HtmlPage(page: PageOpts)                                // render html: build_not_found_page(page)
    | Propagated(error: Exception)                            // an error the method does not rescue

  /** `(request.format && request.format.json?) || request.xhr? || (params[:external_id] || "").ends_with?(".json")` */
  predicate ShowJsonErrors(req: Request): (b: bool)
    // each of the three signals is enough on its own
    ensures req.format == Some("json") ==> b
    ensures req.xhr ==> b
    ensures (exists p :: req.externalId == Some(p + ".json")) ==> b
    // with none of them the error page is HTML; a missing `external_id` counts as ""
    ensures (&& req.format != Some("json") && !req.xhr
             && !(exists p :: req.externalId == Some(p + ".json"))) ==> !b
  {
    || req.format == Some("json")
    || req.xhr
    || EndsWith(req.externalId.GetOr(""), ".json")
  }

  /** Only `topics#show` and `categories#find_by_slug` get `extras` in a JSON error. */
  predicate WantsExtras(req: Request): (b: bool)
    ensures b <==> (req.controller, req.action) in
                     {(Some("topics"), Some("show")), (Some("categories"), Some("find_by_slug"))}
  {
    || (req.controller == Some("topics") && req.action == Some("show"))
    || (req.controller == Some("categories") && req.action == Some("find_by_slug"))
  }

  /** The text of a translation that is not marked safe. */
  function Translate(t: Translator, key: string): Text {
    Text(t(key, map[]), false)
  }

  /**
   * The title and message: with a custom message both are its interpolated,
   * html-safe translation; otherwise the message is the type's translation and
   * the title is "access_denied" whatever the status.
   */
  function HeadingFor(errorType: string, status: int, opts: ActionOpts, t: Translator): (h: Heading)
    ensures opts.customMessage.Some? ==>
              && h.title == h.message
              && h.message == Text(t(opts.customMessage.value, opts.customMessageParams.GetOr(map[])), true)
    ensures opts.customMessage.None? ==>
              && h.message == Translate(t, errorType)
              && h.title == Translate(t, AccessDeniedKey)
  {
    match opts.customMessage
    case Some(key) =>
      var text := Text(t(key, opts.customMessageParams.GetOr(map[])), true);
      Heading(text, text)
    case None =>
      var message := Translate(t, errorType);
      if status == ForbiddenStatus then Heading(Translate(t, AccessDeniedKey), message)
      else Heading(Translate(t, AccessDeniedKey), message)
  }

  /** `error_page_opts`: built with `custom_invalid_access: true`. */
  function ErrorPageOpts(title: Text, status: int, opts: ActionOpts): (p: PageOpts)
    ensures p.customInvalidAccess && p.title == Some(title) && p.status == status
    ensures p.group == opts.group && p.layout.None?
  {
    PageOpts(Some(title), status, opts.group, true, None)
  }

  /** The permalink redirect the source guards with `type == :not_found && opts[:check_permalinks]`. */
  function PermalinkTarget(errorType: string, opts: ActionOpts, req: Request, env: Env): (target: Option<string>)
    ensures errorType != NotFoundType || !opts.checkPermalinks ==> target.None?
    // the permalink of `opts[:original_path]`, or else of the request path, with a target URL
    ensures target.Some? ==>
              env.findPermalink(opts.originalPath.GetOr(req.fullpath)) == Some(Permalink(target))
    // and such a permalink is always followed
    ensures (&& errorType == NotFoundType && opts.checkPermalinks
             && env.findPermalink(opts.originalPath.GetOr(req.fullpath)).Some?
             && env.findPermalink(opts.originalPath.GetOr(req.fullpath)).value.targetUrl.Some?) ==>
              target == env.findPermalink(opts.originalPath.GetOr(req.fullpath)).value.targetUrl
  {
    if errorType == NotFoundType && opts.checkPermalinks then
      match env.findPermalink(opts.originalPath.GetOr(req.fullpath))
      case Some(Permalink(Some(target))) => Some(target)
      case _ => None
    else None
  }

  /** The decision of `rescue_discourse_actions(type, status_code, opts)`. */
  function RescueDiscourseActions(errorType: string, status: int, opts0: Option<ActionOpts>,
                                  req: Request, env: Env): (r: Response)
    // every other type is handed to the host, with a nil opts already replaced by {}
    ensures errorType != CustomInvalidAccessType ==> r == Delegated(errorType, status, opts0.GetOr(NoActionOpts))
    // the custom type is never delegated and never redirected to a permalink
    ensures errorType == CustomInvalidAccessType ==> !r.Delegated? && !r.PermalinkRedirect?
    // a JSON error exactly when the request asks for JSON
    ensures errorType == CustomInvalidAccessType ==> (r.JsonError? <==> ShowJsonErrors(req))
    ensures r.JsonError? ==>
              var h := HeadingFor(errorType, status, opts0.GetOr(NoActionOpts), env.t);
              && r.errorType == errorType && r.status == status && r.message == h.message
              && (r.extras.Some? <==> WantsExtras(req))
              && (r.extras.Some? ==>
                    r.extras.value == Extras(Translate(env.t, AccessDeniedKey),
                                             ErrorPageOpts(h.title, status, opts0.GetOr(NoActionOpts)),
                                             opts0.GetOr(NoActionOpts).group))
    // otherwise an HTML page, plain text when the session setup denies access, or the setup's error
    ensures errorType == CustomInvalidAccessType && !ShowJsonErrors(req) ==>
              && (r.HtmlPage? <==> env.setup.SetupOk?)
              && (r.PlainText? <==> env.setup.SetupRaised? && env.setup.error.InvalidAccess?)
    ensures r.PlainText? ==>
              r == PlainText(HeadingFor(errorType, status, opts0.GetOr(NoActionOpts), env.t).message, status)
    ensures r.HtmlPage? ==>
              var o := opts0.GetOr(NoActionOpts);
              && r.page.customInvalidAccess
              && r.page.title == Some(HeadingFor(errorType, status, o, env.t).title)
              && r.page.status == status && r.page.group == o.group
              && r.page.layout == Some(if o.includeEmber && env.preloaded then ControllerLayout else NoEmberLayout)
    ensures r.Propagated? ==> env.setup == SetupRaised(r.error) && !r.error.InvalidAccess?
  {
    var opts := opts0.GetOr(NoActionOpts);
    if errorType != CustomInvalidAccessType then Delegated(errorType, status, opts)
    else
      var showJsonErrors := ShowJsonErrors(req);
      match PermalinkTarget(errorType, opts, req, env)
      case Some(target) => PermalinkRedirect(target)
      case None =>
        var heading := HeadingFor(errorType, status, opts, env.t);
        var errorPageOpts := ErrorPageOpts(heading.title, status, opts);
        if showJsonErrors then
          var extras :=
            if WantsExtras(req) then Some(Extras(Translate(env.t, AccessDeniedKey), errorPageOpts, errorPageOpts.group))
            else None;
          JsonError(heading.message, errorType, status, extras)
        else
          match env.setup
          case SetupRaised(InvalidAccess(_)) => PlainText(heading.message, status)
          case SetupRaised(e) => Propagated(e)
          case SetupOk =>
            var layout := if opts.includeEmber && env.preloaded then ControllerLayout else NoEmberLayout;
            HtmlPage(errorPageOpts.(layout := Some(layout)))
  }

  /** The options the `rescue_from` handler copies out of the exception. */
  function ForwardedOpts(e: CustomInvalidAccess): (o: ActionOpts)
    ensures o.customMessage == e.customMessage && o.customMessageParams == e.customMessageParams
    ensures o.htmlSafe == e.htmlSafe
    ensures o == NoActionOpts.(customMessage := e.customMessage,
                               customMessageParams := e.customMessageParams, htmlSafe := e.htmlSafe)
  {
    ActionOpts(e.customMessage, e.customMessageParams, e.htmlSafe, false, None, None, false)
  }

  /**
   * The `rescue_from CustomInvalidAccess` handler: always type
   * `:custom_invalid_access` with status 403, the exception's three attributes
   * forwarded unchanged.
   */
  function HandleCustomInvalidAccess(e: CustomInvalidAccess, req: Request, env: Env): (r: Response)
    ensures !r.Delegated? && !r.PermalinkRedirect?
    ensures r.JsonError? <==> ShowJsonErrors(req)
    ensures r.JsonError? ==> r.errorType == CustomInvalidAccessType && r.status == ForbiddenStatus
    ensures r.PlainText? ==> r.status == ForbiddenStatus
    ensures r.HtmlPage? ==> r.page.status == ForbiddenStatus && r.page.customInvalidAccess
  {
    RescueDiscourseActions(CustomInvalidAccessType, ForbiddenStatus, Some(ForwardedOpts(e)), req, env)
  }

  /** The handled response does not depend on the exception's `html_safe` attribute. */
  lemma HtmlSafeAttributeIgnored(e: CustomInvalidAccess, htmlSafe: Option<bool>, req: Request, env: Env)
    ensures HandleCustomInvalidAccess(e.(htmlSafe := htmlSafe), req, env) == HandleCustomInvalidAccess(e, req, env)
  {
  }

  /** A custom message is shown as the same html-safe text as title and body, on every path. */
  lemma CustomMessageShown(e: CustomInvalidAccess, req: Request, env: Env)
    requires e.customMessage.Some?
    ensures var text := Text(env.t(e.customMessage.value, e.customMessageParams.GetOr(map[])), true);
            var r := HandleCustomInvalidAccess(e, req, env);
            && (r.JsonError? ==> r.message == text && (r.extras.Some? ==> r.extras.value.html.title == Some(text)))
            && (r.PlainText? ==> r.message == text)
            && (r.HtmlPage? ==> r.page.title == Some(text))
  {
  }
}

/**
 * The `CustomBuildNotFoundPagePatch#build_not_found_page` override. Asked for
 * a custom access page, it sets the controller fields the "not found" template
 * reads and renders that template; any other call goes to the host's method.
 * This patch is installed whether or not the plugin's feature flag is on.
 */
module NotFoundPagePatch {
  import opened Wrappers
  import opened AccessErrors
  import opened RescueActionsPatch

  /** `current_user`: a user, nobody, or a raised `StandardError`. */
  datatype UserLookup = UserFound(id: int) | NoUser | UserLookupRaised

  /** What `build_not_found_page` returns. */
  datatype Page =
    | NotFoundTemplate(status: int, layout: Option<Layout>)  // the "/exceptions/not_found" template, rendered to a string
    | HostNotFoundPage(opts: PageOpts)                       // what the host's own method builds from `opts`

  /** The controller fields the access page is rendered from. */
  datatype PageFields = PageFields(
    topicsPartial: Option<string>, // @topics_partial
    hideSearch: bool,              // @hide_search (nil reads as false)
    pageTitle: Option<Text>,       // @page_title
    title: Option<Text>,           // @title
    currentUser: Option<int>)      // @current_user

  /** `begin current_user rescue StandardError nil end` */
  function UserOrNil(lookup: UserLookup): (u: Option<int>)
    ensures u.Some? <==> lookup.UserFound?
    ensures lookup.UserFound? ==> u == Some(lookup.id)
  {
    match lookup
    case UserFound(id) => Some(id)
    case _ => None
  }

  /**
   * The fields a custom access page is rendered with: no topics partial, search
   * hidden, "access_denied" as the page title, the given title or else
   * "access_denied" as the title, and the current user if it can be resolved.
   */
  function AccessPageFields(opts: PageOpts, t: Translator, lookup: UserLookup): (f: PageFields)
    ensures f.topicsPartial.None? && f.hideSearch
    ensures f.pageTitle == Some(Translate(t, AccessDeniedKey))
    ensures opts.title.Some? ==> f.title == opts.title
    ensures opts.title.None? ==> f.title == Some(Translate(t, AccessDeniedKey))
    ensures f.currentUser == UserOrNil(lookup)
  {
    PageFields(None, true, Some(Translate(t, AccessDeniedKey)),
               Some(opts.title.GetOr(Translate(t, AccessDeniedKey))), UserOrNil(lookup))
  }

  /** The options a response has `build_not_found_page` called with, if any. */
  function PageBuiltFor(r: Response): (p: Option<PageOpts>)
    ensures r.HtmlPage? ==> p == Some(r.page)
    ensures r.JsonError? && r.extras.Some? ==> p == Some(r.extras.value.html)
    ensures p.Some? ==> r.HtmlPage? || (r.JsonError? && r.extras.Some?)
  {
    match r
    case HtmlPage(page) => Some(page)
    case JsonError(_, _, _, Some(extras)) => Some(extras.html)
    case _ => None
  }

  /** The part of `ApplicationController` the patch writes to. */
  class NotFoundPageController {
    var topicsPartial: Option<string>
    var hideSearch: bool
    var pageTitle: Option<Text>
    var title: Option<Text>
    var currentUser: Option<int>

    function Fields(): PageFields
      reads this
    {
      PageFields(topicsPartial, hideSearch, pageTitle, title, currentUser)
    }

    /** A controller whose instance variables are all still nil. */
    constructor ()
      ensures Fields() == PageFields(None, false, None, None, None)
    {
      topicsPartial, hideSearch, pageTitle, title, currentUser := None, false, None, None, None;
    }

    /**
     * `build_not_found_page(opts)`: with `custom_invalid_access` set, the fields
     * become those of the access page and the not-found template is rendered
     * with the given status and layout; otherwise the host's method builds the
     * page and this patch changes no field.
     */
    method BuildNotFoundPage(opts: PageOpts, t: Translator, lookup: UserLookup) returns (page: Page)
      modifies this
      ensures opts.customInvalidAccess ==>
                && Fields() == AccessPageFields(opts, t, lookup)
                && page == NotFoundTemplate(opts.status, opts.layout)
      ensures !opts.customInvalidAccess ==> Fields() == old(Fields()) && page == HostNotFoundPage(opts)
    {
      if opts.customInvalidAccess {
        topicsPartial := None;
        hideSearch := true;
        pageTitle := Some(Translate(t, AccessDeniedKey));
        title := Some(opts.title.GetOr(Translate(t, AccessDeniedKey)));
        match lookup {
          case UserFound(id) => currentUser := Some(id);
          case _ => currentUser := None;
        }
        page := NotFoundTemplate(opts.status, opts.layout);
        return;
      }
      page := HostNotFoundPage(opts);
    }

    /**
     * The `rescue_from CustomInvalidAccess` handler run on this controller: the
     * response of `rescue_discourse_actions`, and the page it has built (for an
     * HTML page, or for the `extras` of a JSON error) with the fields that page
     * left behind. A plain-text or propagated outcome builds no page.
     */
    method RescueCustomInvalidAccess(e: CustomInvalidAccess, req: Request, env: Env, lookup: UserLookup)
      returns (r: Response, html: Option<Page>)
      modifies this
      ensures r == HandleCustomInvalidAccess(e, req, env)
      ensures html.Some? <==> PageBuiltFor(r).Some?
      ensures html.Some? ==>
                && html.value == NotFoundTemplate(ForbiddenStatus, PageBuiltFor(r).value.layout)
                && Fields() == AccessPageFields(PageBuiltFor(r).value, env.t, lookup)
      ensures html.None? ==> Fields() == old(Fields())
    {
      r := HandleCustomInvalidAccess(e, req, env);
      match PageBuiltFor(r) {
        case Some(opts) =>
          var page := BuildNotFoundPage(opts, env.t, lookup);
          html := Some(page);
        case None =>
          html := None;
      }
    }
  }
}

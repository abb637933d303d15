/**
 * `DiscourseCategoryAccessGuide::CustomInvalidAccess` and the other exceptions
 * that can leave `TopicsController#show` once the plugin has patched it.
 */
module AccessErrors {
  import opened Wrappers

  /** Interpolation parameters of an I18n message, keyed by the symbol's name. */
  type Params = map<string, string>

  /**
   * The options hash handed to `CustomInvalidAccess.new`; a key the hash does
   * not hold reads as nil (None).
   */
  datatype InitOpts = InitOpts(
    customMessage: Option<string>,
    customMessageParams: Option<Params>,
    htmlSafe: Option<bool>)

  /** The empty hash `{}`. */
  const NoInitOpts := InitOpts(None, None, None)

  /**
   * A `CustomInvalidAccess` exception: the message handed to `StandardError`
   * and the three attributes its readers expose.
   */
  datatype CustomInvalidAccess = CustomInvalidAccess(
    message: Option<string>,
    customMessage: Option<string>,
    customMessageParams: Option<Params>,
    htmlSafe: Option<bool>)
  {
    /** The three `attr_reader`s, gathered back into an options hash. */
    function Readers(): InitOpts {
      InitOpts(customMessage, customMessageParams, htmlSafe)
    }
  }

  /**
   * `CustomInvalidAccess.new(msg, opts)`: a nil `opts` is taken as `{}`; each
   * reader then returns what `opts` held under its key.
   */
  function NewCustomInvalidAccess(msg: Option<string>, opts: Option<InitOpts>): (e: CustomInvalidAccess)
    ensures e.message == msg
    ensures e.Readers() == opts.GetOr(NoInitOpts)
  {
    var o := opts.GetOr(NoInitOpts);
    CustomInvalidAccess(msg, o.customMessage, o.customMessageParams, o.htmlSafe)
  }

  /** What can be raised out of the (patched) `TopicsController#show`. */
  datatype Exception =
    | InvalidAccess(message: Option<string>)  // Discourse::InvalidAccess
    | Custom(error: CustomInvalidAccess)      // DiscourseCategoryAccessGuide::CustomInvalidAccess
    | ParserError                             // JSON::ParserError, from malformed setting text
    | NoMethodError(name: string)             // a method called on a value that lacks it
    | OtherError(name: string)                // anything else the original action raises

  /** The plain `raise Discourse::InvalidAccess`, with no message. */
  const PlainInvalidAccess := InvalidAccess(None)

  /** Constructing with nil options and with `{}` gives the same exception. */
  lemma NilOptsAreEmptyOpts(msg: Option<string>)
    ensures NewCustomInvalidAccess(msg, None) == NewCustomInvalidAccess(msg, Some(NoInitOpts))
  {
  }
}

/** The page-rendering manager of package `template` (src/app/template/manager.go).
    A Manager owns the template directory, the optional debug configuration,
    the master and error views and a localization store; it completes
    responses by rendering the master view and turns error page data into a
    rendered error page, or into a panic in dev mode.

    Collaborators the manager only calls are parameters of the model:
    the template engine's render function, `filepath.Join`, and the loader of
    the localization store. What the manager does to the HTTP response, the
    logger and standard output is recorded as events appended to a Trace,
    and a Go panic is a result value. */
module Template {

  datatype Option<+T> = None | Some(value: T)

  /** `httpx.MIMETypeHTMLUTF8`. */
  const MimeHtmlUtf8: string := "text/html; charset=utf-8"
  /** The reserved localization key of the site name. */
  const SiteNameKey: string := "_siteName"
  const TitleSeparator: string := " - "
  /** The title of every error page. */
  const ErrorTitle: string := "Error"
  /** The event name of the log entry for an unexpected error. */
  const FatalErrorEvent: string := "fatal-error"
  const MasterTemplate: string := "master.html"
  const ErrorTemplate: string := "error.html"
  /** Printed to standard output just before a dev-mode panic. */
  const DevModeMarker: string := "\U{1F649} This message only appears in dev mode."
  /** Logged at construction when views are reloaded on every refresh. */
  const ViewDevModeWarning: string := "\U{26A0}\U{FE0F} View dev mode is on"

  /** `internals.DebugConfig`: present only in development. */
  datatype DebugConfig = DebugConfig(reloadViewsOnRefresh: bool, panicOnUnexpectedHTMLErrors: bool)

  /** A Go `error` value; `description` is what its `Error()` method returns. */
  datatype GoError = GoError(description: string)

  /** `ErrorPageData`: what a handler hands to `MustError`. */
  datatype ErrorPageData = ErrorPageData(expected: bool, error: Option<GoError>, message: string)

  /** `MasterPageData`: the input of the master view. */
  datatype MasterPageData = MasterPageData(title: string, contentHTML: string, header: string, scripts: string)

  /** The data a view is executed with. */
  datatype PageData = MasterPage(master: MasterPageData) | ErrorPage(failure: ErrorPageData)

  /** A parsed template (`templatex.View`): the file it was parsed from and
      whether it is re-parsed on every execution. */
  datatype View = View(file: string, hotReload: bool)

  /** The localization store (`localization.Manager`). Only its lookup is
      modelled; the object identity stands for the store being shared. */
  class LocalizationManager {
    /** `ValueForKey(lang, key)`. */
    const valueForKey: (string, string) -> string

    constructor (valueForKey: (string, string) -> string)
      ensures this.valueForKey == valueForKey
    {
      this.valueForKey := valueForKey;
    }
  }

  /** `LocalizedView`: a view together with the store its templates look strings up in. */
  datatype LocalizedView = LocalizedView(view: View, localizationManager: LocalizationManager)

  /** The template engine's execution of a view: view, localization store,
      language and data to the produced HTML. */
  type Renderer = (View, LocalizationManager, string, PageData) -> string

  /** `filepath.Join` of two path elements. */
  type PathJoin = (string, string) -> string

  datatype LoadResult = Loaded(store: LocalizationManager) | LoadFailed(err: GoError)

  /** `localization.NewManagerFromDirectory(i18nDir, defaultLang)`. */
  type Loader = (string, string) -> LoadResult

  /** One observable effect. */
  datatype Event =
    | SetContentType(mime: string)                       // on the response writer
    | Write(body: string)                                // to the response body
    | LogError(event: string, keyValues: seq<string>)    // `logx.Logger.Error`
    | Println(line: string)                              // `fmt.Println` to standard output
    | LogPrint(line: string)                             // `log.Print` on the standard logger

  /** What a Go `panic` is called with in `MustError`. */
  datatype PanicPayload = PanicError(err: GoError) | PanicMessage(text: string)

  datatype Outcome = Completed | Panicked(payload: PanicPayload)

  datatype CreateResult = Created(manager: Manager) | StartupPanicked(err: GoError)

  /** The effect sink: response writer, logger and standard output in the order
      the events happen. */
  class Trace {
    var events: seq<Event>

    constructor ()
      ensures events == []
    {
      events := [];
    }

    method Emit(e: Event)
      modifies this
      ensures events == old(events) + [e]
    {
      events := events + [e];
    }
  }

  // ---------------------------------------------------------------------------
  // Specification functions of the effects
  // ---------------------------------------------------------------------------

  /** `NewMasterPageData(title, contentHTML)`: header and scripts start empty. */
  function NewMasterPageData(title: string, contentHTML: string): MasterPageData
  {
    MasterPageData(title, contentHTML, "", "")
  }

  /** `MustExecute`/`MustExecuteToString` of a localized view. */
  function Execute(render: Renderer, v: LocalizedView, lang: string, data: PageData): string
  {
    render(v.view, v.localizationManager, lang, data)
  }

  /** The events of completing a response with the given body. */
  function CompletionEvents(body: string): seq<Event>
  {
    [SetContentType(MimeHtmlUtf8), Write(body)]
  }

  /** The dev-mode switch that turns unexpected errors into panics. */
  predicate PanicsOnUnexpected(debugConfig: Option<DebugConfig>)
  {
    debugConfig.Some? && debugConfig.value.panicOnUnexpectedHTMLErrors
  }

  /** The `msg` of the fatal-error log entry. */
  function FatalErrorMessage(d: ErrorPageData): string
  {
    if d.error.Some? then d.message + "(" + d.error.value.description + ")" else d.message
  }

  /** The master page data of an error page. */
  function ErrorMasterData(render: Renderer, errorView: LocalizedView, lang: string, d: ErrorPageData): MasterPageData
  {
    NewMasterPageData(ErrorTitle, Execute(render, errorView, lang, ErrorPage(d)))
  }

  datatype Response = Response(outcome: Outcome, events: seq<Event>)

  /** What `MustError` does, as a value: the panic check, then the log entry
      for an unexpected error, then the error page inside the master page. */
  function ErrorResponse(debugConfig: Option<DebugConfig>, masterView: LocalizedView, errorView: LocalizedView,
                         render: Renderer, lang: string, d: ErrorPageData): Response
  {
    if !d.expected && PanicsOnUnexpected(debugConfig) then
      Response(Panicked(if d.error.Some? then PanicError(d.error.value) else PanicMessage(d.message)),
               [Println(DevModeMarker)])
    else
      var logged := if !d.expected then [LogError(FatalErrorEvent, ["msg", FatalErrorMessage(d)])] else [];
      var page := Execute(render, masterView, lang, MasterPage(ErrorMasterData(render, errorView, lang, d)));
      Response(Completed, logged + CompletionEvents(page))
  }

  /** Every body write comes after the HTML content type was set. */
  predicate ContentTypeBeforeBody(events: seq<Event>)
  {
    forall i :: 0 <= i < |events| && events[i].Write? ==> SetContentType(MimeHtmlUtf8) in events[..i]
  }

  predicate Logs(events: seq<Event>)
  {
    exists i :: 0 <= i < |events| && events[i].LogError?
  }

  predicate WritesResponse(events: seq<Event>)
  {
    exists i :: 0 <= i < |events| && (events[i].Write? || events[i].SetContentType?)
  }

  // ---------------------------------------------------------------------------
  // The manager
  // ---------------------------------------------------------------------------

  class Manager {
    const dir: string
    const debugConfig: Option<DebugConfig>
    const localizationManager: LocalizationManager
    var masterView: Option<LocalizedView>
    var errorView: Option<LocalizedView>

    /** Both views are loaded, as `MustCreateManager` leaves them. */
    ghost predicate Valid()
      reads this
    {
      masterView.Some? && errorView.Some?
    }

    /** The struct literal of `MustCreateManager`: the views are still nil. */
    constructor (dir: string, localizationManager: LocalizationManager, debugConfig: Option<DebugConfig>)
      ensures this.dir == dir && this.localizationManager == localizationManager
      ensures this.debugConfig == debugConfig
      ensures masterView == None && errorView == None
    {
      this.dir := dir;
      this.localizationManager := localizationManager;
      this.debugConfig := debugConfig;
      masterView := None;
      errorView := None;
    }

    /** `MustCreateManager`: warns when views reload on refresh, loads the
        localization store (panicking when that fails), then parses the master
        view and the error view in that order. */
    static method MustCreateManager(dir: string, i18nDir: string, defaultLang: string,
                                    debugConfig: Option<DebugConfig>, load: Loader, join: PathJoin, out: Trace)
      returns (r: CreateResult)
      modifies out
      ensures out.events == old(out.events) +
        (if debugConfig.Some? && debugConfig.value.reloadViewsOnRefresh then [LogPrint(ViewDevModeWarning)] else [])
      ensures load(i18nDir, defaultLang).LoadFailed? ==> r == StartupPanicked(load(i18nDir, defaultLang).err)
      ensures load(i18nDir, defaultLang).Loaded? ==>
        && r.Created? && fresh(r.manager) && r.manager.Valid()
        && r.manager.dir == dir && r.manager.debugConfig == debugConfig
        && r.manager.localizationManager == load(i18nDir, defaultLang).store
        && r.manager.masterView == Some(r.manager.MustParseLocalizedView(MasterTemplate, join))
        && r.manager.errorView == Some(r.manager.MustParseLocalizedView(ErrorTemplate, join))
    {
      if debugConfig.Some? && debugConfig.value.reloadViewsOnRefresh {
        out.Emit(LogPrint(ViewDevModeWarning));
      }
      var loaded := load(i18nDir, defaultLang);
      if loaded.LoadFailed? {
        return StartupPanicked(loaded.err);
      }
      var t := new Manager(dir, loaded.store, debugConfig);
      t.masterView := Some(t.MustParseLocalizedView(MasterTemplate, join));
      t.errorView := Some(t.MustParseLocalizedView(ErrorTemplate, join));
      r := Created(t);
    }

    /** `MustCompleteWithContent`: the HTML content type, then the content as is. */
    method MustCompleteWithContent(content: string, out: Trace)
      modifies out
      ensures out.events == old(out.events) + CompletionEvents(content)
    {
      out.Emit(SetContentType(MimeHtmlUtf8));
      out.Emit(Write(content));
    }

    /** `MustComplete`: the HTML content type, then the master view executed with `d`. */
    method MustComplete(lang: string, d: MasterPageData, render: Renderer, out: Trace)
      requires Valid()
      modifies out
      ensures out.events == old(out.events) + CompletionEvents(Execute(render, masterView.value, lang, MasterPage(d)))
    {
      out.Emit(SetContentType(MimeHtmlUtf8));
      out.Emit(Write(Execute(render, masterView.value, lang, MasterPage(d))));
    }

    /** `MustError`: panics on an unexpected error in dev mode; otherwise logs
        an unexpected error and completes the response with the error view
        wrapped in a master page titled "Error". */
    method MustError(lang: string, d: ErrorPageData, render: Renderer, out: Trace) returns (r: Outcome)
      requires Valid()
      modifies out
      ensures r == ErrorResponse(debugConfig, masterView.value, errorView.value, render, lang, d).outcome
      ensures out.events == old(out.events) + ErrorResponse(debugConfig, masterView.value, errorView.value, render, lang, d).events
    {
      if !d.expected && debugConfig.Some? && debugConfig.value.panicOnUnexpectedHTMLErrors {
        out.Emit(Println(DevModeMarker));
        if d.error.Some? {
          return Panicked(PanicError(d.error.value));
        } else {
          return Panicked(PanicMessage(d.message));
        }
      }
      if !d.expected {
        var msg := d.message;
        if d.error.Some? {
          msg := msg + "(" + d.error.value.description + ")";
        }
        out.Emit(LogError(FatalErrorEvent, ["msg", msg]));
      }
      var errorHTML := Execute(render, errorView.value, lang, ErrorPage(d));
      var htmlData := NewMasterPageData(ErrorTitle, errorHTML);
      MustComplete(lang, htmlData, render, out);
      r := Completed;
    }

    /** `PageTitle`: the given string, the separator and the localized site name. */
    function PageTitle(lang: string, s: string): (r: string)
      ensures |r| == |s| + |TitleSeparator| + |localizationManager.valueForKey(lang, SiteNameKey)|
      ensures r[..|s|] == s
      ensures r[|s|..|s| + |TitleSeparator|] == TitleSeparator
      ensures r[|s| + |TitleSeparator|..] == localizationManager.valueForKey(lang, SiteNameKey)
    {
      s + TitleSeparator + localizationManager.valueForKey(lang, SiteNameKey)
    }

    /** `LocalizedPageTitle`: the page title of the localized string of `key`. */
    function LocalizedPageTitle(lang: string, key: string): (r: string)
      ensures r == PageTitle(lang, LocalizedString(lang, key))
    {
      var ls := localizationManager.valueForKey(lang, key);
      PageTitle(lang, ls)
    }

    /** `LocalizedString`: the store's value of `key` in `lang`, unchanged. */
    function LocalizedString(lang: string, key: string): (r: string)
      ensures r == localizationManager.valueForKey(lang, key)
    {
      localizationManager.valueForKey(lang, key)
    }

    /** `MustParseView`: the template at `dir` joined with the relative path,
        hot-reloaded exactly when a debug configuration is present. */
    function MustParseView(relativePath: string, join: PathJoin): (v: View)
      ensures v.file == join(dir, relativePath)
      ensures v.hotReload <==> debugConfig.Some?
    {
      var file := join(dir, relativePath);
      View(file, debugConfig != None)
    }

    /** `MustParseLocalizedView`: the same view, bound to the manager's own store. */
    function MustParseLocalizedView(relativePath: string, join: PathJoin): (v: LocalizedView)
      ensures v.view.file == join(dir, relativePath)
      ensures v.view.hotReload <==> debugConfig.Some?
      ensures v.localizationManager == localizationManager
    {
      LocalizedView(MustParseView(relativePath, join), localizationManager)
    }
  }

  // ---------------------------------------------------------------------------
  // Properties
  // ---------------------------------------------------------------------------

  /** An expected error is neither logged nor escalated: the response is the
      error view of the caller's own data inside the "Error" master page. */
  lemma ExpectedErrorRendersWithoutLogOrPanic(debugConfig: Option<DebugConfig>, masterView: LocalizedView,
                                              errorView: LocalizedView, render: Renderer, lang: string, d: ErrorPageData)
    requires d.expected
    ensures var resp := ErrorResponse(debugConfig, masterView, errorView, render, lang, d);
      && resp.outcome == Completed
      && resp.events == CompletionEvents(Execute(render, masterView, lang,
                          MasterPage(NewMasterPageData(ErrorTitle, Execute(render, errorView, lang, ErrorPage(d))))))
      && !Logs(resp.events)
  {
  }

  /** In dev mode with the panic flag an unexpected error panics with the error
      value, or with the message when there is none; only the dev-mode marker is
      printed before, nothing is logged and nothing reaches the response. */
  lemma DevModePanicsBeforeAnyLogOrWrite(debugConfig: Option<DebugConfig>, masterView: LocalizedView,
                                         errorView: LocalizedView, render: Renderer, lang: string, d: ErrorPageData)
    requires !d.expected && debugConfig.Some? && debugConfig.value.panicOnUnexpectedHTMLErrors
    ensures var resp := ErrorResponse(debugConfig, masterView, errorView, render, lang, d);
      && resp.outcome == Panicked(if d.error.Some? then PanicError(d.error.value) else PanicMessage(d.message))
      && resp.events == [Println(DevModeMarker)]
      && !Logs(resp.events) && !WritesResponse(resp.events)
  {
  }

  /** `MustError` panics exactly when the error is unexpected and the debug
      configuration asks for panics; without a debug configuration it never does. */
  lemma PanicsIffUnexpectedInPanicMode(debugConfig: Option<DebugConfig>, masterView: LocalizedView,
                                       errorView: LocalizedView, render: Renderer, lang: string, d: ErrorPageData)
    ensures ErrorResponse(debugConfig, masterView, errorView, render, lang, d).outcome.Panicked?
        <==> !d.expected && debugConfig.Some? && debugConfig.value.panicOnUnexpectedHTMLErrors
    ensures debugConfig.None? ==> ErrorResponse(debugConfig, masterView, errorView, render, lang, d).outcome == Completed
  {
  }

  /** An unexpected error outside panic mode is logged exactly once, first, as
      "fatal-error" with the message and the error's description in parentheses. */
  lemma UnexpectedErrorLoggedOnce(debugConfig: Option<DebugConfig>, masterView: LocalizedView,
                                  errorView: LocalizedView, render: Renderer, lang: string, d: ErrorPageData)
    requires !d.expected && !PanicsOnUnexpected(debugConfig)
    ensures var resp := ErrorResponse(debugConfig, masterView, errorView, render, lang, d);
      var msg := if d.error.Some? then d.message + "(" + d.error.value.description + ")" else d.message;
      && resp.outcome == Completed
      && resp.events[0] == LogError(FatalErrorEvent, ["msg", msg])
      && (forall i :: 1 <= i < |resp.events| ==> !resp.events[i].LogError?)
  {
  }

  /** Every `MustError` that does not panic ends with completing the response
      with the master view of a page titled "Error" whose content is the error
      view's rendering of the caller's data, message included. */
  lemma NonPanickingErrorEndsWithErrorMasterPage(debugConfig: Option<DebugConfig>, masterView: LocalizedView,
                                                 errorView: LocalizedView, render: Renderer, lang: string, d: ErrorPageData)
    requires ErrorResponse(debugConfig, masterView, errorView, render, lang, d).outcome == Completed
    ensures var events := ErrorResponse(debugConfig, masterView, errorView, render, lang, d).events;
      var md := NewMasterPageData(ErrorTitle, Execute(render, errorView, lang, ErrorPage(d)));
      && md.title == ErrorTitle
      && md.contentHTML == Execute(render, errorView, lang, ErrorPage(d))
      && |events| >= 2
      && events[|events| - 2..] == CompletionEvents(Execute(render, masterView, lang, MasterPage(md)))
  {
    var md := NewMasterPageData(ErrorTitle, Execute(render, errorView, lang, ErrorPage(d)));
    var events := ErrorResponse(debugConfig, masterView, errorView, render, lang, d).events;
    assert events[|events| - 2..] == CompletionEvents(Execute(render, masterView, lang, MasterPage(md)));
  }

  /** Completing sets the HTML content type before writing, and writes the body unchanged. */
  lemma CompletionSetsContentTypeFirst(body: string)
    ensures ContentTypeBeforeBody(CompletionEvents(body))
    ensures CompletionEvents(body)[0] == SetContentType(MimeHtmlUtf8)
    ensures CompletionEvents(body)[1] == Write(body)
  {
    var events := CompletionEvents(body);
    assert events[..1] == [SetContentType(MimeHtmlUtf8)];
  }

  /** No `MustError` writes a body before the content type is set. */
  lemma ErrorResponseSetsContentTypeFirst(debugConfig: Option<DebugConfig>, masterView: LocalizedView,
                                          errorView: LocalizedView, render: Renderer, lang: string, d: ErrorPageData)
    ensures ContentTypeBeforeBody(ErrorResponse(debugConfig, masterView, errorView, render, lang, d).events)
  {
    var events := ErrorResponse(debugConfig, masterView, errorView, render, lang, d).events;
    if events != [Println(DevModeMarker)] {
      var n := |events|;
      assert events[n - 2] == SetContentType(MimeHtmlUtf8);
      forall i | 0 <= i < n && events[i].Write? ensures SetContentType(MimeHtmlUtf8) in events[..i] {
        assert i == n - 1;
        assert events[..i][n - 2] == events[n - 2];
      }
    }
  }

  /** The page title is the string followed by the separator and the site name,
      so two strings with the same title in one language are the same string. */
  lemma PageTitleInjective(m: Manager, lang: string, s1: string, s2: string)
    requires m.PageTitle(lang, s1) == m.PageTitle(lang, s2)
    ensures s1 == s2
  {
    var t := m.PageTitle(lang, s1);
    assert s1 == t[..|s1|] && s2 == t[..|s2|];
  }

  /** Both title helpers are stated through the plain lookup: a page title is
      the string, " - " and the localized site name. */
  lemma TitleHelpersThroughLookup(m: Manager, lang: string, key: string, s: string)
    ensures m.PageTitle(lang, s) == s + " - " + m.LocalizedString(lang, SiteNameKey)
    ensures m.LocalizedPageTitle(lang, key) == m.LocalizedString(lang, key) + " - " + m.LocalizedString(lang, "_siteName")
  {
  }

  /** Hot reloading follows the presence of a debug configuration, not its
      `reloadViewsOnRefresh` flag. */
  lemma HotReloadIgnoresReloadFlag(m: Manager, relativePath: string, join: PathJoin)
    requires m.debugConfig.Some? && !m.debugConfig.value.reloadViewsOnRefresh
    ensures m.MustParseView(relativePath, join).hotReload
    ensures m.MustParseLocalizedView(relativePath, join).view.hotReload
  {
  }
}

# Page-rendering manager and localization dictionary generator

A Dafny model of two pieces of a server-rendered Go web application.

**`template.Manager`** (`template.dfy`, module `Template`) composes HTML pages.
It owns:
- the template directory;
- an optional debug configuration (`ReloadViewsOnRefresh`, `PanicOnUnexpectedHTMLErrors`);
- the master view and the error view;
- the localization store.

It completes a response by setting the HTML content type and executing the master view.
It turns error page data into an error page wrapped in a master page titled "Error".
In dev mode it instead panics on unexpected errors.
It also offers page-title and localized-string helpers, and factories that parse templates under its directory.

The manager is a class.
Its constructor is the struct literal and leaves both views unset (`None`).
The factory `MustCreateManager` then assigns the view parsed from "master.html" and after it the view parsed from "error.html", as the source does.
Everything the manager does to the HTTP response writer, the logger and standard output is recorded in a `Trace` object as a sequence of events (`SetContentType`, `Write`, `LogError`, `Println`, `LogPrint`).
A Go panic is a result value (`Outcome.Panicked`, `CreateResult.StartupPanicked`).
`MustError` is a method over the trace.
Its postcondition ties both the outcome and the appended events to the pure function `ErrorResponse`, and the lemmas state the properties of that function.

The collaborators are parameters.
- The template engine's execution of a view is a `Renderer` function of view, store, language and data.
- `filepath.Join` is a `PathJoin` function.
- Loading the localization store from a directory is a `Loader` whose result is either a store or an error.
- The store itself is a `LocalizationManager` object whose only member is the lookup `valueForKey(lang, key)`. Object identity stands for "the same store".

**The dictionary generator** (`build_ls.dfy`, module `DictionaryGenerator`) turns the keys of the English localization JSON object into a Go struct declaration.
The output is a fixed header, one tagged `string` field per key in sorted key order, and a closing brace.
`BuildDictionarySource` grows the result string step by step, as the script does.
The proofs show four things:
- the output has the right framing;
- there is one field line per key;
- the lines follow strictly ascending key order;
- each line carries its key verbatim in the json tag.

The output depends only on the set of keys.
`pascalCase` is a parameter.
The built-in `sort()` is modelled as an insertion sort on lexicographic character order.
`SortedUnique` shows that any correct sort gives the same sequence.

`MustError` (manager.go:81-102) sets no status code and does no not-found classification.
It only panics, or logs and then renders.
It never writes to the caller's `ErrorPageData`: the log message is a local copy.
The error view therefore receives the caller's data exactly as given.

## Model

| member | source | states |
|---|---|---|
| `Template.Manager.constructor` | src/app/template/manager.go:48-53 | the struct literal: directory, store and debug configuration as given, both views still nil |
| `Template.Manager.MustCreateManager` | src/app/template/manager.go:31-61 | the dev-mode warning is logged exactly when a debug configuration with ReloadViewsOnRefresh is present, and before loading; a failed load panics with the load error; otherwise a fresh manager holds dir, debug configuration and the loaded store, with masterView parsed from "master.html" and errorView from "error.html" |
| `Template.Manager.MustCompleteWithContent` | src/app/template/manager.go:64-67 | appends exactly the HTML UTF-8 content type and then one write of the content, unchanged |
| `Template.Manager.MustComplete` | src/app/template/manager.go:70-78 | appends the HTML UTF-8 content type and then the master view's rendering of (lang, d) |
| `Template.Manager.MustError` | src/app/template/manager.go:81-102 | the outcome and the appended events are those of ErrorResponse for the manager's debug configuration and views |
| `Template.ExpectedErrorRendersWithoutLogOrPanic` | src/app/template/manager.go:81-102 | an expected error completes without a log entry and without a panic; the events are exactly the completion with the master view of an "Error" page whose content is the error view's rendering of the caller's unchanged data |
| `Template.DevModePanicsBeforeAnyLogOrWrite` | src/app/template/manager.go:82-89 | an unexpected error with the panic flag set panics with d.Error when present, else with d.Message; the only event is the dev-mode marker on standard output: no log entry, no content type, no write |
| `Template.PanicsIffUnexpectedInPanicMode` | src/app/template/manager.go:82 | MustError panics if and only if the error is unexpected and a debug configuration with PanicOnUnexpectedHTMLErrors is present; with no debug configuration it always completes |
| `Template.UnexpectedErrorLoggedOnce` | src/app/template/manager.go:92-98 | an unexpected error outside panic mode completes; its first event is the one "fatal-error" log entry, whose msg is d.Message + "(" + the error's description + ")" when there is an error and d.Message otherwise; no later event is a log entry |
| `Template.NonPanickingErrorEndsWithErrorMasterPage` | src/app/template/manager.go:99-101 | every non-panicking MustError ends with the content type and a write of the master view rendering NewMasterPageData("Error", the error view's rendering of (lang, d)): title "Error", that content, empty header and scripts |
| `Template.CompletionSetsContentTypeFirst` | src/app/template/manager.go:64-67 | completing sets the HTML UTF-8 content type first and then writes the body unchanged |
| `Template.ErrorResponseSetsContentTypeFirst` | src/app/template/manager.go:70-101 | in every MustError trace, each body write comes after the HTML UTF-8 content type was set |
| `Template.Manager.PageTitle` | src/app/template/manager.go:105-107 | the title consists of s, then " - ", then the store's value of "_siteName" in lang, and nothing else |
| `Template.PageTitleInjective` | src/app/template/manager.go:105-107 | two strings with the same page title in one language are equal |
| `Template.Manager.LocalizedPageTitle` | src/app/template/manager.go:110-113 | the localized page title is PageTitle applied to the localized string of the key |
| `Template.Manager.LocalizedString` | src/app/template/manager.go:129-131 | returns the store's value for (lang, key) unchanged |
| `Template.TitleHelpersThroughLookup` | src/app/template/manager.go:105-113 | PageTitle(lang, s) is s + " - " + LocalizedString(lang, "_siteName"); LocalizedPageTitle(lang, k) is LocalizedString(lang, k) + " - " + LocalizedString(lang, "_siteName") |
| `Template.Manager.MustParseView` | src/app/template/manager.go:123-126 | the view is parsed from join(dir, relativePath) and hot-reloads exactly when a debug configuration is present |
| `Template.Manager.MustParseLocalizedView` | src/app/template/manager.go:116-120 | the same file and hot-reload flag, bound to the manager's own localization store |
| `Template.HotReloadIgnoresReloadFlag` | src/app/template/manager.go:116-126 | a present debug configuration makes both factories hot-reload, even with ReloadViewsOnRefresh false |
| `DictionaryGenerator.SortStrings` | tools/build-ls.ts:22-23 | the sorted keys are in ascending lexicographic order and are a permutation of the keys |
| `DictionaryGenerator.SortedUnique` | tools/build-ls.ts:22-23 | two sorted permutations of the same keys are equal, so the sorted order does not depend on the sort algorithm or on the input order |
| `DictionaryGenerator.FieldLines` | tools/build-ls.ts:22-26 | one field line per key, the i-th line built from the i-th key |
| `DictionaryGenerator.BuildDictionarySource` | tools/build-ls.ts:11-28 | the accumulated result is the preamble, the concatenated field lines of the sorted keys, then "}\n" |
| `DictionaryGenerator.SourceFraming` | tools/build-ls.ts:11-28 | the output starts with the "DO NOT EDIT" comment and the package clause, continues with the Dictionary doc comment and "type Dictionary struct {\n", and ends with "}\n" |
| `DictionaryGenerator.OneFieldLinePerKeyInOrder` | tools/build-ls.ts:22-26 | for distinct keys: as many field lines as keys; the sorted keys are exactly the keys, in strictly ascending order; line i is "\t" + pascalCase(key) + " string `json:\"" + key + "\"`\n" for the i-th sorted key |
| `DictionaryGenerator.OutputDependsOnlyOnKeySet` | tools/build-ls.ts:21-28 | two key sequences with the same set of keys give the same output, whatever their order |

## Left out

- `FormatLocalizedString` (manager.go:134-136): it only calls into an external string-format library.
- The template engine: parsing, re-parsing on each execution in hot-reload mode, and execution failures. A view is its file and hot-reload flag, and rendering is the `Renderer` parameter.
- Loading the localization store from a directory (`localization.NewManagerFromDirectory`): the localization package is not part of this model, so the load is the `Loader` parameter. Only its result is modelled: a store, or an error that makes construction panic.
- The `logger` field: log calls become trace events. The `ctx` parameter is dropped because the manager never uses it.
- The response body is a `string`, not a byte slice. The model does no text encoding.
- `NewMasterPageData` is defined in a file that is not part of this model. It is taken to set the title and the content and to leave Header and Scripts empty.
- `handlers/homePage/homeGET.go`: a handler with no logic of its own that uses the clock.
- Concurrency: the manager is read-only after construction, and the model is sequential.
- build-ls.ts: reading the JSON file, `JSON.parse`, writing the output file, and the `camelcase` library. The keys are the input, and `pascalCase` is a parameter.
- SortStrings: JavaScript's default sort compares UTF-16 code units, while the model compares Unicode scalar values. The two orders agree unless two keys first differ at a position where one has a character above U+FFFF and the other a character in U+E000..U+FFFF.

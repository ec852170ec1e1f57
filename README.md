# render: HTML template rendering core, modelled in Dafny

This project models the core of `render.go`, a Go package that writes HTML
templates (and JSON, XML and binary data) to HTTP responses. It covers five parts:

- **Options and their defaults.** `Options` is a record. `New` keeps the first
  configuration it is given, or Go's zero value. `prepareOptions` then fills in
  these defaults: charset "UTF-8", directory "templates", extensions
  `[".tmpl"]`, content type "text/html", the `os.DirFS(".")` file system and a
  pool of 32 buffers of 512 KiB. It precomputes the "; charset=" suffix, and it
  picks a real `sync.RWMutex` or a no-op lock.
- **The template-set compiler.** `compileTemplatesFromDir` walks the template
  directory. It skips directories and entries with walk errors. For each
  remaining file it computes the extension of the relative path and matches it
  against the allow-list. A matching file is read and parsed under its name,
  which is the relative path without the extension. The walk stops at the
  first read or parse failure, and the set built so far stays in place.
- **The layout functions.** A layout template calls `yield`, `current` and
  `partial`. Each call is modelled as a decision over the names the set
  defines. `partial` first tries "<partial>-<page>". It falls back to the bare
  name only when fallback is enabled and the suffixed name is undefined. It
  executes the chosen name when partials are required or the name is defined,
  and otherwise returns "".
- **The per-call option merge.** `prepareHTMLOptions` takes the layout of the
  first override when that layout is non-empty. It merges the configured
  function maps in order, then the override's, and a later name wins.
- **HTML orchestration and `Render`.** In development mode the held set is
  dropped. A missing set is compiled, after the call's functions are appended
  to the configuration. A compile error is returned at once. When the page
  exists and a layout is in effect, the layout runs in the page's place. The
  response head carries the content type followed by the charset suffix.
  `Render` passes the engine's error through. It also writes a 500 response
  when there is an error, automatic error rendering is enabled and the writer
  is an `http.ResponseWriter`.

Modules:

- `Wrappers`: `Option`.
- `Paths`: `filepath.Ext`, the extension and template name of a walked file.
- `Config`: options, defaults, the lock choice, the content type, function-map
  merging and the per-call merge.
- `Templates`: walk entries, template sets, the compile specification
  `CompileWalk` and its lemmas.
- `Layout`: `yield`/`current`/`partial`.
- `Renderer`: the `Render` class. Its methods change `opt`, `templates`,
  `compiledCharset` and `lock` in place, and each one is proved against the
  specification functions above.

Inputs stand in for what the model cannot see:

- The directory walk is given as the sequence of calls the walk makes to its
  callback.
- Each entry carries the outcome of reading and parsing its file.
- The helper functions the package registers after the configured ones are a
  parameter (`helpers`).
- Executing a template is the template engine's job: its outcome for a call is
  a parameter (`engineErr`).

## Model

| member | source | states |
|---|---|---|
| Paths.Ext | render.go:170-173 | filepath.Ext: a suffix of the path that is "" or starts with its only '.', with no separator in it |
| Paths.ExtEmptyMeansNoDot | render.go:170-173 | when the extension is "", no character of the last path element is a '.' |
| Paths.TemplateExt | render.go:170-173 | the guarded extension ("" when the relative path has no '.') always equals filepath.Ext of the path |
| Paths.TemplateName | render.go:183-184 | the template name followed by the matched extension is exactly the relative path |
| Paths.NameAndExtDetermineFile | render.go:183-184 | two relative paths with the same name and extension are the same path |
| Paths.DotInDirectoryOnly | render.go:170-173 | a '.' that occurs only in a directory component gives the extension "" |
| Paths.ExtOfSuffix | render.go:170-184 | a file ending in ".ext" (one dot, no separator) has extension ".ext" and is registered under the stem before it |
| Config.ZeroOptions | render.go:99 | Go's zero Options, which New starts from when given none: every string, list and nil-able option empty, every flag off |
| Config.Defaulted | render.go:111-133 | each empty or nil option takes its default (UTF-8, templates, [.tmpl], text/html, DirFS("."), 32 x 512 KiB pool); each set option keeps its value; every other option is unchanged |
| Config.DefaultedIdempotent | render.go:111-133 | filling in defaults twice is filling them in once; options that already have them are left as they are |
| Config.LockFor | render.go:134-138 | the lock is the RWMutex exactly when IsDevelopment or UseMutexLock, and the no-op lock exactly when neither |
| Config.LockChoiceTable | render_test.go:14-41 | the four IsDevelopment/UseMutexLock combinations of the lock test give mutex, mutex, mutex, empty |
| Config.CharsetSuffix | render.go:116-118 | the suffix is "; charset=" followed by the charset |
| Config.ContentTypeFor | render.go:305-308 | the Content-Type is HTMLContentType + "; charset=" + Charset, or exactly HTMLContentType when the charset is disabled |
| Config.DefaultContentType | render.go:113-130 | with every option at its default the header is "text/html; charset=UTF-8", and "text/html" with the charset disabled |
| Config.MergeFuncs | render.go:239-243 | function maps applied in order with later entries replacing earlier ones; its properties are the three lemmas below |
| Config.MergeFuncsKeys | render.go:239-243 | a name is in the merged function map exactly when some map in the list defines it |
| Config.MergeFuncsLastWins | render.go:239-253 | a merged name has the value of the last map that defines it |
| Config.MergeFuncsAppend | render.go:239-253 | merging a concatenation is merging each part and letting the second win |
| Config.MergeAbsorbsAppended | render.go:284-287 | appending a list's merged functions to that list and merging again gives the same map |
| Config.NoFuncsMergeEmpty | render.go:237-253 | a list of empty maps merges to the empty map |
| Config.EffectiveHTMLOptions | render.go:235-260 | the layout and functions a call runs with; Renderer.Render.PrepareHTMLOptions computes it and Config.EffectiveOptionsMerge states its meaning |
| Config.OnlyFirstOverride | render.go:245-246 | only the first HTMLOptions is consulted; later ones change nothing |
| Config.EffectiveOptionsMerge | render.go:235-260 | the layout is the override's when non-empty, else the configured one; the override's functions win; every other name keeps its merged configured value |
| Templates.NewTemplateSet | render.go:146-157 | a fresh set is named after the directory, has the configured delimiters and no templates, and carries the configured maps and then the helpers, merged in order |
| Templates.Define | render.go:183-189 | a parsed file adds its own name and its blocks' names and nothing else; its own name maps to its text unless a block redefines it |
| Templates.DefineText | render.go:183-189 | after a file is defined, each name holds its block's text if the file has that block, else the file's text if it is the file's name, else the template it had |
| Templates.MatchExtensions | render.go:175-191 | an unmatched extension changes nothing; a matched one stops with the read error or the parse error, or defines the file's template |
| Templates.CompileEntry | render.go:160-163 | a directory or an entry with a walk error is skipped unchanged; an entry that stops the walk leaves the set as it was; no entry changes the set's frame or removes a name |
| Templates.CompileWalk | render.go:160-193 | the walk leaves the set's name, delimiters and functions as they were and never removes a template |
| Templates.CompileWalkAppend | render.go:160-193 | compiling a + b is compiling a, then b only if a raised no error |
| Templates.SkippedEntryNoEffect | render.go:161-163 | a directory, an errored entry or a file whose extension is not allowed adds nothing and raises nothing, wherever it sits in the walk |
| Templates.CompiledNamesPresent | render.go:175-190 | after an error-free walk, every matching file was read and parsed, and its template and all its blocks are defined |
| Templates.CompiledNamesOrigin | render.go:147-193 | every compiled name was defined by a matching, readable, parseable entry, whether or not the walk failed |
| Templates.CompileFirstError | render.go:177-192 | a failed walk fails at its first failing matching entry, with that entry's read or parse error, and keeps what the entries before it defined |
| Templates.CleanWalkSucceeds | render.go:160-193 | a walk whose matching files all read and parse returns no error |
| Templates.UncontributedNameKept | render.go:160-193 | a template that no entry of the walk contributes keeps its text, whether or not the walk fails |
| Templates.CompiledNameText | render.go:175-190 | after an error-free walk, a template holds the text given by the last entry that contributes it: later files and blocks replace earlier ones |
| Layout.SuffixedName | render.go:221 | the first candidate is the partial name, '-', then the page name |
| Layout.ResolvePartial | render.go:220-231 | the executed name is the bare one exactly when the suffixed name is undefined and fallback is on, and the suffixed one otherwise; lenient mode executes only defined names; strict mode always executes; "" is returned exactly when neither candidate applies |
| Layout.LayoutFunc | render.go:210-233 | yield executes the original page, current returns its name, partial resolves as above |
| Layout.StrictFallbackExecutesBareName | render.go:222-226 | in strict mode with the suffixed name undefined, fallback executes the bare name whether or not it is defined, and without fallback the suffixed one |
| Layout.FooterHomeScenario | render.go:220-228 | partial "footer" on page "home" runs "footer-home" under every flag setting whenever that name is defined |
| Renderer.OptionsAfterCall | render.go:284-286 | an HTML call changes only the configured function list, and it can only append the call's merged functions to it |
| Renderer.AppendedFuncsChangeNothing | render.go:284-286 | the appended map equals the merge of the list it extends, so later calls with the same override see the same effective options |
| Renderer.SetForCall | render.go:276-291 | the set a call works with: the held one, with no error, outside development mode when one is held (even one a failed compile left); a compile error arises only when the call rebuilds |
| Renderer.OptionsWithFuncs | render.go:285 | the configuration with only its function list replaced |
| Renderer.Render.ContentType | render.go:306 | the Content-Type of an HTML response; the constructor ties it to Config.ContentTypeFor of the options |
| Renderer.Render.constructor | render.go:98-109 | New holds the defaulted first options (or zero options), no template set, the lock for those options and their Content-Type |
| Renderer.Render.PrepareOptions | render.go:111-139 | the options become their defaulted form; the charset suffix is set unless disabled; the lock follows LockFor |
| Renderer.Render.CompileTemplates | render.go:141-194 | the held set becomes the set the walk specification compiles from a fresh set, kept even when the walk fails, and the error is the walk's |
| Renderer.Render.ParseMatching | render.go:175-191 | the loop over the allow-list for one file computes exactly the step the compile specification gives for that file |
| Renderer.Render.TemplateLookup | render.go:199-203 | a template is returned exactly when the held set defines that name, and it is that name's template |
| Renderer.Render.AddFuncs | render.go:240-242 | copying a map in gives the union of names, with the copied map's values winning |
| Renderer.Render.PrepareHTMLOptions | render.go:235-260 | the nested copy loops compute the effective layout and functions of the per-call merge |
| Renderer.Render.Render | render.go:263-269 | the engine error is returned unchanged; a 500 page with the error text and a newline is written exactly when there is an error, error rendering is enabled and the writer is an http.ResponseWriter |
| Renderer.Render.LoadTemplates | render.go:276-296 | the set is rebuilt exactly in development mode or when none is held, after the call's functions are appended to the configuration; the call's functions are then added to the set |
| Renderer.Render.HTML | render.go:272-318 | a compile error is returned with no engine and the partial set kept; otherwise the layout replaces the name exactly when the page is defined and a layout is in effect, the head is Content-Type plus status, and Render's rule decides whether there is an error page, which is then a 500 carrying the error text and a newline |

## Left out

- Template parsing, escaping and execution belong to html/template. Each walk
  entry carries its parse outcome, as the text of the file and the blocks it
  defines. A call's execution outcome is the parameter `engineErr`.
- Some html/template behaviour is not modelled. The root template named after
  the directory can be looked up, but is never defined here. A name is created
  with `New` before `Parse` fails, and `New` also resets an existing template
  of that name. So in the source, a parse failure on a file whose name an
  earlier file or block already defined leaves that name incomplete in the set
  it keeps. Parsing a file whose body is empty does not replace an existing
  definition. In the model, a failed parse adds no name and changes none (the
  earlier definition stays, as Templates.CompileFirstError states), and a later
  definition always replaces an earlier one.
- The layout functions registered with `tpl.Funcs` go to the set's shared
  function namespace. They are modelled as `TemplateSet.boundPage`, the page
  that `yield`, `current` and `partial` are bound to. They are not modelled as
  three more entries of `funcs`.
- Concurrency is not modelled. The RLock/Lock/Unlock choreography and the
  RWMutex itself are left out; only which kind of lock is chosen is modelled.
  Races between concurrent HTML calls are not modelled either.
- The file system is not modelled: `fs.WalkDir`, `fs.ReadFile` and `os.DirFS`
  are left out, and so is fs_embed.go. The walk is an input.
  `filepath.Rel` is taken to succeed, which it does for every path the walk
  yields under the directory, so each entry carries its relative path.
- The model assumes a Unix build. The separator is '/', so `filepath.ToSlash`
  leaves names unchanged, and Windows separators are not modelled.
- engine.go is not part of this model: `HTML.Render`, `Head.Write` and the
  buffer pool's use. The HTML engine value an HTML call builds is returned as
  `engine`. `helperFuncs` is not part of this model either; it is the
  parameter `helpers`.
- Renderer.Render.TemplateLookup: requires a held set. In the source, calling
  it before any compile dereferences a nil template set.
- JSON, XML, data and text rendering, and the options only they use
  (PrefixJSON, UnEscapeHTML), are carried in `Options` but not modelled as
  operations.
- The model follows the code where a plain reading of the package's
  description suggests otherwise:
  - A failed compile keeps the partial set, and a later call outside
    development mode reuses it.
  - A recompiling HTML call appends its merged functions to the configured
    list, so in development mode that list grows with every such call.
  - The layout functions are bound on the shared set, so they persist after
    the call.

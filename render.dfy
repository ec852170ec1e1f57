/**
 * The Render object (render.go lines 86-318): construction and defaulting,
 * compiling the template set, the per-call option merge, the generic Render
 * entry point and the HTML call.
 *
 * Template execution is the template engine's: its outcome for a call is an
 * input (`engineErr`). The walk of the template directory is an input
 * (`walk`), as are the helper functions registered after the configured ones
 * (`helpers`).
 */
module Renderer {
  import opened Wrappers
  import opened Config
  import opened Paths
  import opened Templates
  import opened Layout

  /** The io.Writer a call writes to: an http.ResponseWriter, or any other writer. */
  datatype Writer = ResponseWriter | PlainWriter

  /** Head: the Content-Type value and status an HTML response is written with. */
  datatype Head = Head(contentType: string, status: int)

  /**
   * The HTML engine value an HTML call hands to Render: its head, the name of
   * the template to execute, the template set and the buffer pool.
   */
  datatype HTMLEngine = HTMLEngine(head: Head, name: string, templates: TemplateSet, bufferPool: Option<BufferPool>)

  /** An error response as http.Error writes it: a status and the error text on a line. */
  datatype HttpError = HttpError(status: int, body: string)

  const StatusInternalServerError: int := 500

  /** Whether an HTML call must compile the template set: always in development mode, otherwise only when none is held. */
  predicate Rebuilds(opt: Options, held: Option<TemplateSet>)
  {
    opt.isDevelopment || held.None?
  }

  /**
   * The configuration after an HTML call: when the call compiles and its
   * effective functions are not empty, they are appended to the configured
   * list of function maps.
   */
  function OptionsAfterCall(opt: Options, held: Option<TemplateSet>, htmlOpt: seq<HTMLOptions>): (o: Options)
    ensures o.funcs == opt.funcs || o.funcs == opt.funcs + [EffectiveHTMLOptions(opt, htmlOpt).funcs]
    ensures o.layout == opt.layout
    ensures o.(funcs := opt.funcs) == opt
  {
    var call := EffectiveHTMLOptions(opt, htmlOpt);
    if Rebuilds(opt, held) && |call.funcs| > 0 then OptionsWithFuncs(opt, opt.funcs + [call.funcs]) else opt
  }

  /**
   * Folding a call's functions into the configuration does not change what
   * that call, or a later call with the same override, sees: the appended map
   * already holds the merge of everything before it. In development mode the
   * list grows on every such call while the merged functions stay the same.
   */
  lemma AppendedFuncsChangeNothing(opt: Options, held: Option<TemplateSet>, htmlOpt: seq<HTMLOptions>)
    ensures var after := OptionsAfterCall(opt, held, htmlOpt);
      && (after.funcs != opt.funcs ==> MergeFuncs(after.funcs) == EffectiveHTMLOptions(opt, htmlOpt).funcs)
      && EffectiveHTMLOptions(after, htmlOpt) == EffectiveHTMLOptions(opt, htmlOpt)
  {
    var after := OptionsAfterCall(opt, held, htmlOpt);
    var a, c := opt.funcs, CallFuncs(htmlOpt);
    if after.funcs != a {
      MergeAbsorbsAppended(a, c);
      var f := after.funcs;
      assert f == a + [MergeFuncs(a + c)];
      assert f + c == a + [MergeFuncs(a + c)] + c;
    }
  }

  /** The configuration with its list of function maps replaced. */
  function OptionsWithFuncs(opt: Options, funcs: seq<FuncMap>): (o: Options)
    ensures o.funcs == funcs && o == opt.(funcs := funcs)
  {
    Options(opt.directory, opt.fileSystem, opt.layout, opt.extensions, funcs, opt.delims, opt.charset,
            opt.disableCharset, opt.prefixJSON, opt.htmlContentType, opt.isDevelopment,
            opt.useMutexLock, opt.unEscapeHTML, opt.requirePartials,
            opt.disableHTTPErrorRendering, opt.renderPartialsWithoutPrefix, opt.bufferPool)
  }

  /**
   * The template set an HTML call works with, before its call functions and
   * layout binding are added: a fresh compile under `opt` when the call
   * rebuilds, else the one held.
   */
  function SetForCall(opt: Options, held: Option<TemplateSet>, walk: seq<WalkEntry>, helpers: FuncMap): (r: Compiled)
    ensures !Rebuilds(opt, held) ==> r == Compiled(held.value, None)
    ensures r.err.Some? ==> Rebuilds(opt, held)
  {
    if opt.isDevelopment || held.None? then CompileWalk(NewTemplateSet(opt, helpers), walk, opt.extensions)
    else Compiled(held.value, None)
  }

  class Render {
    var lock: LockKind
    var opt: Options
    var templates: Option<TemplateSet>
    var compiledCharset: string

    /** The Content-Type an HTML response is written with. */
    function ContentType(): string
      reads this
    {
      opt.htmlContentType + compiledCharset
    }

    /** New: the first of the given options, or the zero options, with the defaults filled in. */
    constructor (options: seq<Options>)
      ensures opt == Defaulted(if options == [] then ZeroOptions() else options[0])
      ensures templates == None
      ensures ContentType() == ContentTypeFor(opt)
      ensures lock == LockFor(opt)
    {
      opt := if options == [] then ZeroOptions() else options[0];
      templates := None;
      compiledCharset := "";
      lock := EmptyLock;
      new;
      PrepareOptions();
    }

    /**
     * prepareOptions: fills in the defaults, precomputes the charset suffix
     * unless the charset is disabled, and picks the lock.
     */
    method PrepareOptions()
      modifies this
      ensures opt == Defaulted(old(opt))
      ensures compiledCharset == if opt.disableCharset then old(compiledCharset) else CharsetSuffix(opt.charset)
      ensures lock == LockFor(opt)
      ensures templates == old(templates)
    {
      var o := opt;
      var charset := if |o.charset| == 0 then DefaultCharset else o.charset;
      if !o.disableCharset {
        compiledCharset := "; charset=" + charset;
      }
      var directory := if |o.directory| == 0 then DefaultDirectory else o.directory;
      var fileSystem := if o.fileSystem.None? then Some(DirFS(".")) else o.fileSystem;
      var extensions := if |o.extensions| == 0 then [DefaultExtension] else o.extensions;
      var htmlContentType := if |o.htmlContentType| == 0 then ContentHTML else o.htmlContentType;
      var bufferPool := if o.bufferPool.None? then Some(DefaultBufferPool) else o.bufferPool;
      if o.isDevelopment || o.useMutexLock {
        lock := RWMutex;
      } else {
        lock := EmptyLock;
      }
      opt := Options(directory, fileSystem, o.layout, extensions, o.funcs, o.delims, charset,
                     o.disableCharset, o.prefixJSON, htmlContentType, o.isDevelopment,
                     o.useMutexLock, o.unEscapeHTML, o.requirePartials,
                     o.disableHTTPErrorRendering, o.renderPartialsWithoutPrefix, bufferPool);
    }

    /**
     * CompileTemplates: replaces the held set by a new one, registers the
     * function maps, then walks the directory, compiling every matching file
     * until a read or parse fails.
     */
    method CompileTemplates(walk: seq<WalkEntry>, helpers: FuncMap) returns (err: Option<Error>)
      modifies this
      ensures templates == Some(CompileWalk(NewTemplateSet(opt, helpers), walk, opt.extensions).templates)
      ensures err == CompileWalk(NewTemplateSet(opt, helpers), walk, opt.extensions).err
      ensures opt == old(opt) && lock == old(lock) && compiledCharset == old(compiledCharset)
    {
      var exts := opt.extensions;
      var ts := TemplateSet(opt.directory, opt.delims, map[], map[], None);
      templates := Some(ts);
      var i := 0;
      while i < |opt.funcs|
        invariant 0 <= i <= |opt.funcs|
        invariant ts == TemplateSet(opt.directory, opt.delims, MergeFuncs(opt.funcs[..i]), map[], None)
      {
        assert opt.funcs[..i + 1][..i] == opt.funcs[..i];
        ts := ts.(funcs := ts.funcs + opt.funcs[i]);
        i := i + 1;
      }
      assert opt.funcs[..i] == opt.funcs;
      ts := ts.(funcs := ts.funcs + helpers);
      templates := Some(ts);
      ghost var start := ts;
      assert start == NewTemplateSet(opt, helpers);

      var j := 0;
      while j < |walk|
        invariant 0 <= j <= |walk|
        invariant templates == Some(ts)
        invariant CompileWalk(start, walk, exts) == CompileWalk(ts, walk[j..], exts)
        invariant opt == old(opt) && lock == old(lock) && compiledCharset == old(compiledCharset)
      {
        var e := walk[j];
        assert walk[j..][0] == e && walk[j..][1..] == walk[j + 1..];
        if !e.isDir && !e.walkErr {
          var step := ParseMatching(ts, e, exts);
          ts := step.templates;
          templates := Some(ts);
          if step.Stop? {
            err := Some(step.err);
            return;
          }
        }
        j := j + 1;
      }
      err := None;
    }

    /**
     * The body of the walk callback for a file: each allow-list entry equal
     * to the file's extension reads the file and parses it into the set under
     * the file's template name; a read or parse failure ends the loop.
     */
    static method ParseMatching(ts: TemplateSet, e: WalkEntry, exts: seq<string>) returns (r: Step)
      ensures r == MatchExtensions(ts, e, exts)
    {
      var rel := e.rel;
      var ext := "";
      if '.' in rel {
        ext := Ext(rel);
      }
      assert ext == TemplateExt(rel);
      var cur := ts;
      var x := 0;
      while x < |exts|
        invariant 0 <= x <= |exts|
        invariant MatchExtensions(ts, e, exts) == MatchExtensions(cur, e, exts[x..])
      {
        assert exts[x..][0] == exts[x] && exts[x..][1..] == exts[x + 1..];
        if ext == exts[x] {
          match e.content {
            case ReadFailed(reason) =>
              return Stop(cur, ReadError(reason));
            case ReadOk(source) =>
              var name := rel[0..|rel| - |ext|];
              match e.parse {
                case ParseFailed(reason) =>
                  return Stop(cur, ParseError(reason));
                case Parsed(blocks) =>
                  cur := Define(cur, name, source, blocks);
              }
          }
        }
        x := x + 1;
      }
      r := Continue(cur);
    }

    /** TemplateLookup: the template of that name in the held set, if it has one. */
    method TemplateLookup(t: string) returns (u: Option<string>)
      requires templates.Some?
      ensures u.Some? <==> t in templates.value.defs
      ensures u.Some? ==> u.value == templates.value.defs[t]
    {
      if t in templates.value.defs {
        u := Some(templates.value.defs[t]);
      } else {
        u := None;
      }
    }

    /** Copies every entry of `src` into `dst`, overwriting names `dst` already has. */
    static method AddFuncs(dst: FuncMap, src: FuncMap) returns (r: FuncMap)
      ensures r.Keys == dst.Keys + src.Keys
      ensures r == dst + src
    {
      r := dst;
      var todo := src.Keys;
      while todo != {}
        invariant todo <= src.Keys
        invariant r.Keys == dst.Keys + (src.Keys - todo)
        invariant forall k :: k in src && k !in todo ==> r[k] == src[k]
        invariant forall k :: k in dst && (k !in src || k in todo) ==> r[k] == dst[k]
        decreases todo
      {
        var k :| k in todo;
        r := r[k := src[k]];
        todo := todo - {k};
      }
      assert forall k :: k in r ==> r[k] == (dst + src)[k];
    }

    /**
     * prepareHTMLOptions: the call's effective layout and functions. The
     * configured function maps are copied in order into a fresh map, then the
     * first override's, each copy overwriting earlier names.
     */
    method PrepareHTMLOptions(htmlOpt: seq<HTMLOptions>) returns (o: HTMLOptions)
      ensures o == EffectiveHTMLOptions(opt, htmlOpt)
    {
      var layout := opt.layout;
      var fms := opt.funcs;
      var funcs: FuncMap := map[];
      var i := 0;
      while i < |fms|
        invariant 0 <= i <= |fms|
        invariant funcs == MergeFuncs(fms[..i])
      {
        assert fms[..i + 1][..i] == fms[..i];
        funcs := AddFuncs(funcs, fms[i]);
        i := i + 1;
      }
      assert fms[..i] == fms;
      if |htmlOpt| > 0 {
        var h := htmlOpt[0];
        if |h.layout| > 0 {
          layout := h.layout;
        }
        funcs := AddFuncs(funcs, h.funcs);
        assert (fms + [h.funcs])[..|fms|] == fms;
      } else {
        assert fms + [] == fms;
      }
      o := HTMLOptions(layout, funcs);
    }

    /**
     * Render: returns the engine's error unchanged; on an error, and unless
     * automatic error rendering is disabled, an http.ResponseWriter also
     * receives a 500 response carrying the error text.
     */
    method Render(w: Writer, engineErr: Option<Error>) returns (err: Option<Error>, errorPage: Option<HttpError>)
      ensures err == engineErr
      ensures errorPage.Some? <==> engineErr.Some? && !opt.disableHTTPErrorRendering && w == ResponseWriter
      ensures errorPage.Some? ==> errorPage.value == HttpError(StatusInternalServerError, engineErr.value.Message() + "\n")
    {
      err := engineErr;
      errorPage := None;
      if err.Some? && !opt.disableHTTPErrorRendering && w.ResponseWriter? {
        errorPage := Some(HttpError(StatusInternalServerError, err.value.Message() + "\n"));
      }
    }

    /**
     * The locked part of an HTML call: in development mode the held set is
     * dropped; a missing set is compiled, after the call's functions, when
     * there are any, are appended to the configured list; the call's
     * functions are then registered on the set.
     */
    method LoadTemplates(call: HTMLOptions, walk: seq<WalkEntry>, helpers: FuncMap) returns (compileErr: Option<Error>)
      modifies this
      ensures lock == old(lock) && compiledCharset == old(compiledCharset)
      ensures opt == if Rebuilds(old(opt), old(templates)) && |call.funcs| > 0
                     then OptionsWithFuncs(old(opt), old(opt).funcs + [call.funcs]) else old(opt)
      ensures var c := SetForCall(opt, old(templates), walk, helpers);
        && compileErr == c.err
        && templates.Some?
        && templates.value.defs == c.templates.defs
        && templates.value.funcs == (if c.err.Some? then c.templates.funcs else c.templates.funcs + call.funcs)
        && templates.value.boundPage == c.templates.boundPage
        && templates.value.root == c.templates.root
        && templates.value.delims == c.templates.delims
    {
      if opt.isDevelopment {
        templates := None;
      }
      if templates.None? {
        if |call.funcs| > 0 {
          opt := OptionsWithFuncs(opt, opt.funcs + [call.funcs]);
        }
        compileErr := CompileTemplates(walk, helpers);
        if compileErr.Some? {
          return;
        }
      } else {
        compileErr := None;
      }
      var ts := templates.value;
      if |call.funcs| > 0 {
        ts := ts.(funcs := ts.funcs + call.funcs);
        templates := Some(ts);
      } else {
        assert call.funcs == map[];
        assert ts.funcs == ts.funcs + call.funcs;
      }
    }

    /**
     * HTML: renders template `name`. In development mode the held set is
     * dropped first; a missing set is compiled (the call's functions folded
     * into the configuration first), and a compile error is returned at once.
     * The call's functions are registered on the set; when the page is
     * defined and a layout is in effect, the layout functions are bound to
     * the page and the layout is executed in its place. The engine's outcome
     * is then passed through Render.
     */
    method HTML(w: Writer, status: int, name: string, htmlOpt: seq<HTMLOptions>,
                walk: seq<WalkEntry>, helpers: FuncMap, engineErr: Option<Error>)
      returns (err: Option<Error>, engine: Option<HTMLEngine>, errorPage: Option<HttpError>)
      modifies this
      ensures lock == old(lock) && compiledCharset == old(compiledCharset)
      ensures opt == OptionsAfterCall(old(opt), old(templates), htmlOpt)
      ensures var c := SetForCall(opt, old(templates), walk, helpers);
        c.err.Some? ==> err == c.err && engine == None && errorPage == None && templates == Some(c.templates)
      ensures var c := SetForCall(opt, old(templates), walk, helpers);
        var call := EffectiveHTMLOptions(old(opt), htmlOpt);
        var viaLayout := name in c.templates.defs && |call.layout| > 0;
        c.err.None? ==>
          && engine.Some?
          && engine.value.head == Head(ContentType(), status)
          && engine.value.name == (if viaLayout then call.layout else name)
          && engine.value.templates.defs == c.templates.defs
          && engine.value.templates.funcs == c.templates.funcs + call.funcs
          && engine.value.templates.boundPage == (if viaLayout then Some(name) else c.templates.boundPage)
          && engine.value.templates.root == c.templates.root
          && engine.value.templates.delims == c.templates.delims
          && engine.value.bufferPool == opt.bufferPool
          && templates == Some(engine.value.templates)
          && err == engineErr
          && (errorPage.Some? <==> engineErr.Some? && !opt.disableHTTPErrorRendering && w == ResponseWriter)
          && (errorPage.Some? ==>
                errorPage.value == HttpError(StatusInternalServerError, engineErr.value.Message() + "\n"))
    {
      var call := PrepareHTMLOptions(htmlOpt);
      var compileErr := LoadTemplates(call, walk, helpers);
      if compileErr.Some? {
        return compileErr, None, None;
      }
      var ts := templates.value;
      var execName := name;
      if name in ts.defs {
        if |call.layout| > 0 {
          ts := ts.(boundPage := Some(name));
          templates := Some(ts);
          execName := call.layout;
        }
      }
      var head := Head(opt.htmlContentType + compiledCharset, status);
      var h := HTMLEngine(head, execName, ts, opt.bufferPool);
      engine := Some(h);
      err, errorPage := Render(w, engineErr);
    }
  }
}

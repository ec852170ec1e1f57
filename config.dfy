/**
 * Configuration of a Render (render.go lines 16-84 and 111-139) and the
 * per-call option merge (render.go lines 235-260).
 */
module Config {
  import opened Wrappers

  /** The default HTML content type (ContentHTML). */
  const ContentHTML: string := "text/html"
  /** The default character set. */
  const DefaultCharset: string := "UTF-8"
  /** The default template directory. */
  const DefaultDirectory: string := "templates"
  /** The default template file extension. */
  const DefaultExtension: string := ".tmpl"
  /** The default buffer pool: 32 buffers of 512 KiB. */
  const DefaultBufferPool: BufferPool := SizedBufferPool(32, 0x8_0000)

  /** Identity of a Go function value handed to the template engine. */
  type FuncId = nat

  /** template.FuncMap: function name to function value. */
  type FuncMap = map<string, FuncId>

  /** Left and right action delimiters; "" lets the template engine pick its own. */
  datatype Delims = Delims(left: string, right: string)

  /** The file system templates are read from: os.DirFS(root) or one the caller supplies. */
  datatype FileSystem = DirFS(root: string) | CustomFS(id: nat)

  /** The buffer pool HTML rendering draws from. */
  datatype BufferPool = SizedBufferPool(count: nat, bufferSize: nat) | CustomPool(id: nat)

  /** The lock guarding the template set: sync.RWMutex or the no-op emptyLock. */
  datatype LockKind = RWMutex | EmptyLock

  /** Options: the configuration of a Render; None stands for Go's nil. */
  datatype Options = Options(
    directory: string,
    fileSystem: Option<FileSystem>,
    layout: string,
    extensions: seq<string>,
    funcs: seq<FuncMap>,
    delims: Delims,
    charset: string,
    disableCharset: bool,
    prefixJSON: seq<bv8>,
    htmlContentType: string,
    isDevelopment: bool,
    useMutexLock: bool,
    unEscapeHTML: bool,
    requirePartials: bool,
    disableHTTPErrorRendering: bool,
    renderPartialsWithoutPrefix: bool,
    bufferPool: Option<BufferPool>)

  /** HTMLOptions: the per-call override of the layout and extra functions. */
  datatype HTMLOptions = HTMLOptions(layout: string, funcs: FuncMap)

  /** Go's zero value of Options, which New uses when it is given none. */
  function ZeroOptions(): Options
  {
    Options("", None, "", [], [], Delims("", ""), "", false, [], "",
            false, false, false, false, false, false, None)
  }

  /** Every option that has a default is set. */
  predicate IsDefaulted(o: Options)
  {
    && o.charset != ""
    && o.directory != ""
    && o.fileSystem.Some?
    && o.extensions != []
    && o.htmlContentType != ""
    && o.bufferPool.Some?
  }

  /** Two configurations that differ at most in the options that have defaults. */
  predicate AgreeOutsideDefaults(o: Options, d: Options)
  {
    && d.layout == o.layout
    && d.funcs == o.funcs
    && d.delims == o.delims
    && d.disableCharset == o.disableCharset
    && d.prefixJSON == o.prefixJSON
    && d.isDevelopment == o.isDevelopment
    && d.useMutexLock == o.useMutexLock
    && d.unEscapeHTML == o.unEscapeHTML
    && d.requirePartials == o.requirePartials
    && d.disableHTTPErrorRendering == o.disableHTTPErrorRendering
    && d.renderPartialsWithoutPrefix == o.renderPartialsWithoutPrefix
  }

  /**
   * The defaults prepareOptions fills in: each empty or nil option takes its
   * default, every option already set keeps its value, and no other option
   * changes.
   */
  function Defaulted(o: Options): (d: Options)
    ensures IsDefaulted(d)
    ensures o.charset == "" ==> d.charset == DefaultCharset
    ensures o.directory == "" ==> d.directory == DefaultDirectory
    ensures o.fileSystem.None? ==> d.fileSystem == Some(DirFS("."))
    ensures o.extensions == [] ==> d.extensions == [DefaultExtension]
    ensures o.htmlContentType == "" ==> d.htmlContentType == ContentHTML
    ensures o.bufferPool.None? ==> d.bufferPool == Some(DefaultBufferPool)
    ensures o.charset != "" ==> d.charset == o.charset
    ensures o.directory != "" ==> d.directory == o.directory
    ensures o.fileSystem.Some? ==> d.fileSystem == o.fileSystem
    ensures o.extensions != [] ==> d.extensions == o.extensions
    ensures o.htmlContentType != "" ==> d.htmlContentType == o.htmlContentType
    ensures o.bufferPool.Some? ==> d.bufferPool == o.bufferPool
    ensures AgreeOutsideDefaults(o, d)
  {
    Options(OrDefault(o.directory, DefaultDirectory), SomeOrDefault(o.fileSystem, DirFS(".")), o.layout,
            OrDefault(o.extensions, [DefaultExtension]), o.funcs, o.delims, OrDefault(o.charset, DefaultCharset),
            o.disableCharset, o.prefixJSON, OrDefault(o.htmlContentType, ContentHTML), o.isDevelopment,
            o.useMutexLock, o.unEscapeHTML, o.requirePartials, o.disableHTTPErrorRendering,
            o.renderPartialsWithoutPrefix, SomeOrDefault(o.bufferPool, DefaultBufferPool))
  }

  /** A sequence-valued option, or its default when it is empty. */
  function OrDefault<T>(s: seq<T>, default: seq<T>): (r: seq<T>)
    ensures s == [] ==> r == default
    ensures s != [] ==> r == s
  {
    if s == [] then default else s
  }

  /** A nil-able option, or its default when it is nil. */
  function SomeOrDefault<T>(x: Option<T>, default: T): (r: Option<T>)
    ensures r.Some?
    ensures x.None? ==> r == Some(default)
    ensures x.Some? ==> r == x
  {
    if x.None? then Some(default) else x
  }

  /** Applying the defaults to options that already have them changes nothing. */
  lemma DefaultedIdempotent(o: Options)
    ensures Defaulted(Defaulted(o)) == Defaulted(o)
    ensures IsDefaulted(o) ==> Defaulted(o) == o
  {
  }

  /** The lock chosen at construction: the real RWMutex exactly when development mode or UseMutexLock asks for it. */
  function LockFor(o: Options): (k: LockKind)
    ensures k == RWMutex <==> o.isDevelopment || o.useMutexLock
    ensures k == EmptyLock <==> !o.isDevelopment && !o.useMutexLock
  {
    if o.isDevelopment || o.useMutexLock then RWMutex else EmptyLock
  }

  /**
   * The four combinations the lock-configuration test checks, each on the
   * defaulted options a New call with only those two fields set holds.
   */
  lemma LockChoiceTable()
    ensures LockFor(Defaulted(ZeroOptions().(isDevelopment := true, useMutexLock := false))) == RWMutex
    ensures LockFor(Defaulted(ZeroOptions().(isDevelopment := true, useMutexLock := true))) == RWMutex
    ensures LockFor(Defaulted(ZeroOptions().(isDevelopment := false, useMutexLock := true))) == RWMutex
    ensures LockFor(Defaulted(ZeroOptions().(isDevelopment := false, useMutexLock := false))) == EmptyLock
  {
  }

  /** The suffix appended to the HTML content type when the charset is enabled. */
  function CharsetSuffix(charset: string): (s: string)
    ensures |s| == 10 + |charset| && s[..10] == "; charset=" && s[10..] == charset
  {
    "; charset=" + charset
  }

  /**
   * The Content-Type an HTML response carries under configuration `o`: the
   * HTML content type, followed by "; charset=<charset>" unless the charset is
   * disabled.
   */
  function ContentTypeFor(o: Options): (ct: string)
    ensures o.disableCharset ==> ct == o.htmlContentType
    ensures !o.disableCharset ==> ct == o.htmlContentType + "; charset=" + o.charset
  {
    o.htmlContentType + if o.disableCharset then "" else CharsetSuffix(o.charset)
  }

  /**
   * With every option left at its default the header is
   * "text/html; charset=UTF-8"; disabling the charset leaves "text/html".
   */
  lemma DefaultContentType()
    ensures ContentTypeFor(Defaulted(ZeroOptions())) == "text/html; charset=UTF-8"
    ensures ContentTypeFor(Defaulted(ZeroOptions().(disableCharset := true))) == "text/html"
  {
  }

  /**
   * Function maps applied one after another, as template.Funcs and the
   * merge loops apply them: a later map's entry replaces an earlier one.
   */
  function MergeFuncs(fms: seq<FuncMap>): FuncMap
  {
    if fms == [] then map[] else MergeFuncs(fms[..|fms| - 1]) + fms[|fms| - 1]
  }

  /** A name is in the merged map exactly when some map in the list defines it. */
  lemma {:induction false} MergeFuncsKeys(fms: seq<FuncMap>, k: string)
    ensures k in MergeFuncs(fms) <==> exists i :: 0 <= i < |fms| && k in fms[i]
  {
    if fms != [] {
      var n := |fms| - 1;
      MergeFuncsKeys(fms[..n], k);
      if k in MergeFuncs(fms) && k !in fms[n] {
        var i :| 0 <= i < n && k in fms[..n][i];
        assert k in fms[i];
      }
      if exists i :: 0 <= i < |fms| && k in fms[i] {
        var i :| 0 <= i < |fms| && k in fms[i];
        if i < n { assert k in fms[..n][i]; }
      }
    }
  }

  /** The merged value of a name is the one from the last map that defines it. */
  lemma {:induction false} MergeFuncsLastWins(fms: seq<FuncMap>, i: nat, k: string)
    requires i < |fms| && k in fms[i]
    requires forall j :: i < j < |fms| ==> k !in fms[j]
    ensures k in MergeFuncs(fms) && MergeFuncs(fms)[k] == fms[i][k]
  {
    var n := |fms| - 1;
    if i < n {
      assert k !in fms[n];
      MergeFuncsLastWins(fms[..n], i, k);
    }
  }

  /** Merging two lists in turn is merging their concatenation. */
  lemma {:induction false} MergeFuncsAppend(a: seq<FuncMap>, b: seq<FuncMap>)
    ensures MergeFuncs(a + b) == MergeFuncs(a) + MergeFuncs(b)
  {
    if b == [] {
      assert a + b == a;
    } else {
      var n := |b| - 1;
      assert (a + b)[..|a + b| - 1] == a + b[..n];
      MergeFuncsAppend(a, b[..n]);
    }
  }

  /**
   * Appending to a list of maps the merge of that list followed by `c`, then
   * `c` again, merges to the same map: the appended map already holds every
   * entry the list and `c` contribute.
   */
  lemma MergeAbsorbsAppended(a: seq<FuncMap>, c: seq<FuncMap>)
    ensures MergeFuncs(a + [MergeFuncs(a + c)]) == MergeFuncs(a + c)
    ensures MergeFuncs(a + [MergeFuncs(a + c)] + c) == MergeFuncs(a + c)
  {
    var m := MergeFuncs(a + c);
    MergeFuncsAppend(a, c);
    MergeFuncsAppend(a + [m], c);
    assert (a + [m])[..|a + [m]| - 1] == a;
    assert MergeFuncs(a + [m]) == MergeFuncs(a) + m;
    assert MergeFuncs(a) + m == m;
    assert m + MergeFuncs(c) == m;
  }

  /** The functions a call adds: those of its first override, if it has one. */
  function CallFuncs(htmlOpt: seq<HTMLOptions>): seq<FuncMap>
  {
    if htmlOpt == [] then [] else [htmlOpt[0].funcs]
  }

  /**
   * prepareHTMLOptions, as a value: the layout of the first override when that
   * is non-empty, else the configured one; the configured function maps in
   * order, then the override's, a later name replacing an earlier one.
   */
  function EffectiveHTMLOptions(opt: Options, htmlOpt: seq<HTMLOptions>): HTMLOptions
  {
    HTMLOptions(
      if htmlOpt != [] && htmlOpt[0].layout != "" then htmlOpt[0].layout else opt.layout,
      MergeFuncs(opt.funcs + CallFuncs(htmlOpt)))
  }

  /** Only the first override is consulted; any further ones are ignored. */
  lemma OnlyFirstOverride(opt: Options, h: HTMLOptions, rest: seq<HTMLOptions>)
    ensures EffectiveHTMLOptions(opt, [h] + rest) == EffectiveHTMLOptions(opt, [h])
  {
  }

  /**
   * The effective layout: the override's when non-empty, the configured one
   * otherwise. The effective functions: the override's entries win over the
   * configured ones, and every configured name the override does not define
   * keeps its merged configured value.
   */
  lemma EffectiveOptionsMerge(opt: Options, htmlOpt: seq<HTMLOptions>, k: string)
    ensures var e := EffectiveHTMLOptions(opt, htmlOpt);
      && (htmlOpt != [] && htmlOpt[0].layout != "" ==> e.layout == htmlOpt[0].layout)
      && (htmlOpt == [] || htmlOpt[0].layout == "" ==> e.layout == opt.layout)
      && (htmlOpt != [] && k in htmlOpt[0].funcs ==> k in e.funcs && e.funcs[k] == htmlOpt[0].funcs[k])
      && ((htmlOpt == [] || k !in htmlOpt[0].funcs) ==>
            (k in e.funcs <==> k in MergeFuncs(opt.funcs)) &&
            (k in e.funcs ==> e.funcs[k] == MergeFuncs(opt.funcs)[k]))
  {
    MergeFuncsAppend(opt.funcs, CallFuncs(htmlOpt));
    if htmlOpt != [] {
      assert MergeFuncs(CallFuncs(htmlOpt)) == htmlOpt[0].funcs by {
        assert CallFuncs(htmlOpt)[..0] == [];
      }
    }
  }

  /** With no overrides and no configured functions, the call has no functions. */
  lemma {:induction false} NoFuncsMergeEmpty(fms: seq<FuncMap>)
    requires forall i :: 0 <= i < |fms| ==> fms[i] == map[]
    ensures MergeFuncs(fms) == map[]
  {
    if fms != [] {
      NoFuncsMergeEmpty(fms[..|fms| - 1]);
    }
  }
}

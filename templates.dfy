/**
 * The template-set compiler (render.go, compileTemplatesFromDir, lines 145-194).
 * The directory walk is given as the sequence of calls the walk makes to the
 * callback; reading a file and parsing its text are given per entry as their
 * outcomes, since the file system and the template language are not modelled.
 */
module Templates {
  import opened Wrappers
  import opened Config
  import opened Paths

  /**
   * An error with its text: a read or parse failure reported by the compiler,
   * or an execution failure reported by the template engine (the kind a
   * call's `engineErr` carries).
   */
  datatype Error = ReadError(text: string) | ParseError(text: string) | ExecError(text: string)
  {
    /** err.Error(). */
    function Message(): string { text }
  }

  /** The outcome of fs.ReadFile on a walked path. */
  datatype ReadResult = ReadOk(source: string) | ReadFailed(reason: string)

  /**
   * The outcome of parsing a file's text: on success, the templates its
   * {{define}} blocks add, by name.
   */
  datatype ParseOutcome = Parsed(blocks: map<string, string>) | ParseFailed(reason: string)

  /**
   * One call of the walk callback: the walked path relative to the template
   * directory, whether it is a directory, whether the walk reported
   * an error for it (this includes a nil DirEntry), and what reading and
   * parsing the file would give.
   */
  datatype WalkEntry = WalkEntry(
    rel: string,
    isDir: bool,
    walkErr: bool,
    content: ReadResult,
    parse: ParseOutcome)

  /**
   * A template set: its root name (the directory), its delimiters, the
   * functions registered on it, its templates by name with their source, and
   * the page that the yield/current/partial layout functions registered on it
   * are bound to (None before any layout call).
   */
  datatype TemplateSet = TemplateSet(
    root: string,
    delims: Delims,
    funcs: FuncMap,
    defs: map<string, string>,
    boundPage: Option<string>)

  /**
   * The set a compile pass starts from: named after the directory, with the
   * configured delimiters, and the configured function maps followed by the
   * helper functions registered in order.
   */
  function NewTemplateSet(opt: Options, helpers: FuncMap): (ts: TemplateSet)
    ensures ts.defs == map[] && ts.boundPage == None
    ensures ts.root == opt.directory && ts.delims == opt.delims
    ensures ts.funcs == MergeFuncs(opt.funcs + [helpers])
  {
    assert (opt.funcs + [helpers])[..|opt.funcs|] == opt.funcs;
    TemplateSet(opt.directory, opt.delims, MergeFuncs(opt.funcs) + helpers, map[], None)
  }

  /** The fields of a set other than its templates. */
  predicate SameFrame(a: TemplateSet, b: TemplateSet)
  {
    a.root == b.root && a.delims == b.delims && a.funcs == b.funcs && a.boundPage == b.boundPage
  }

  /** An entry the compiler reads: a file, without a walk error, whose extension is allowed. */
  predicate Matches(e: WalkEntry, exts: seq<string>)
  {
    !e.isDir && !e.walkErr && TemplateExt(e.rel) in exts
  }

  /** An entry that, once read and parsed, defines the template `n`. */
  predicate Contributes(e: WalkEntry, exts: seq<string>, n: string)
  {
    && Matches(e, exts)
    && e.content.ReadOk?
    && e.parse.Parsed?
    && (n == TemplateName(e.rel) || n in e.parse.blocks)
  }

  /** A successfully parsed file: its own template under `name`, then its blocks. */
  function Define(ts: TemplateSet, name: string, source: string, blocks: map<string, string>): (r: TemplateSet)
    ensures SameFrame(ts, r)
    ensures r.defs.Keys == ts.defs.Keys + {name} + blocks.Keys
    ensures name !in blocks ==> r.defs[name] == source
  {
    ts.(defs := ts.defs[name := source] + blocks)
  }

  /**
   * The text each name holds after a file is defined: a block's text wins,
   * then the file's own text under its name; every other name keeps the
   * template it had.
   */
  lemma DefineText(ts: TemplateSet, name: string, source: string, blocks: map<string, string>, n: string)
    requires n in Define(ts, name, source, blocks).defs
    ensures Define(ts, name, source, blocks).defs[n] ==
              if n in blocks then blocks[n] else if n == name then source else ts.defs[n]
  {
  }

  /** What handling one entry does: carry on with a set, or stop with a set and an error. */
  datatype Step = Continue(templates: TemplateSet) | Stop(templates: TemplateSet, err: Error)

  /**
   * The loop over the allow-list for one file: each allow-list entry equal to
   * the file's extension reads the file (a read failure stops the walk) and
   * parses it (a parse failure stops the walk). A repeated allow-list entry
   * reads and parses the file again, to the same effect.
   */
  function MatchExtensions(ts: TemplateSet, e: WalkEntry, exts: seq<string>): (r: Step)
    ensures TemplateExt(e.rel) !in exts ==> r == Continue(ts)
    ensures TemplateExt(e.rel) in exts && e.content.ReadFailed? ==>
              r == Stop(ts, ReadError(e.content.reason))
    ensures TemplateExt(e.rel) in exts && e.content.ReadOk? && e.parse.ParseFailed? ==>
              r == Stop(ts, ParseError(e.parse.reason))
    ensures TemplateExt(e.rel) in exts && e.content.ReadOk? && e.parse.Parsed? ==>
              r == Continue(Define(ts, TemplateName(e.rel), e.content.source, e.parse.blocks))
    ensures SameFrame(ts, r.templates) && ts.defs.Keys <= r.templates.defs.Keys
    decreases |exts|
  {
    if exts == [] then Continue(ts)
    else if TemplateExt(e.rel) != exts[0] then MatchExtensions(ts, e, exts[1..])
    else match e.content
      case ReadFailed(reason) => Stop(ts, ReadError(reason))
      case ReadOk(source) =>
        match e.parse
        case ParseFailed(reason) => Stop(ts, ParseError(reason))
        case Parsed(blocks) =>
          var ts' := Define(ts, TemplateName(e.rel), source, blocks);
          assert Define(ts', TemplateName(e.rel), source, blocks) == ts';
          MatchExtensions(ts', e, exts[1..])
  }

  /** The walk callback on one entry: directories and errored entries are skipped. */
  function CompileEntry(ts: TemplateSet, e: WalkEntry, exts: seq<string>): (r: Step)
    ensures e.isDir || e.walkErr ==> r == Continue(ts)
    ensures r.Stop? ==> r.templates == ts
    ensures SameFrame(ts, r.templates) && ts.defs.Keys <= r.templates.defs.Keys
  {
    if e.isDir || e.walkErr then Continue(ts) else MatchExtensions(ts, e, exts)
  }

  /** The result of a compile pass: the set as it stands, and the error that ended the walk, if any. */
  datatype Compiled = Compiled(templates: TemplateSet, err: Option<Error>)

  /**
   * The walk: entries in order until the first one that stops it. The
   * set's frame is untouched and every template already defined stays defined.
   */
  function CompileWalk(ts: TemplateSet, walk: seq<WalkEntry>, exts: seq<string>): (r: Compiled)
    ensures SameFrame(ts, r.templates)
    ensures ts.defs.Keys <= r.templates.defs.Keys
    decreases |walk|
  {
    if walk == [] then Compiled(ts, None)
    else match CompileEntry(ts, walk[0], exts)
      case Stop(s, err) => Compiled(s, Some(err))
      case Continue(s) => CompileWalk(s, walk[1..], exts)
  }

  /** Compiling a walk in two parts: the second part runs only if the first raised no error. */
  lemma {:induction false} CompileWalkAppend(ts: TemplateSet, a: seq<WalkEntry>, b: seq<WalkEntry>, exts: seq<string>)
    ensures var first := CompileWalk(ts, a, exts);
      CompileWalk(ts, a + b, exts) ==
        if first.err.Some? then first else CompileWalk(first.templates, b, exts)
    decreases |a|
  {
    if a == [] {
      assert a + b == b;
    } else {
      assert (a + b)[0] == a[0] && (a + b)[1..] == a[1..] + b;
      match CompileEntry(ts, a[0], exts)
      case Stop(s, err) =>
      case Continue(s) => CompileWalkAppend(s, a[1..], b, exts);
    }
  }

  /**
   * An entry that is a directory, carries a walk error or has an extension
   * outside the allow-list adds nothing and raises nothing, wherever it is in
   * the walk.
   */
  lemma {:induction false} SkippedEntryNoEffect(ts: TemplateSet, pre: seq<WalkEntry>, e: WalkEntry,
                                                post: seq<WalkEntry>, exts: seq<string>)
    requires !Matches(e, exts)
    ensures CompileWalk(ts, pre + [e] + post, exts) == CompileWalk(ts, pre + post, exts)
  {
    CompileWalkAppend(ts, pre, [e] + post, exts);
    CompileWalkAppend(ts, pre, post, exts);
    assert pre + [e] + post == pre + ([e] + post);
    assert ([e] + post)[0] == e && ([e] + post)[1..] == post;
  }

  /**
   * After a walk that raised no error, every matching file's template, and
   * every block it defines, is in the set.
   */
  lemma {:induction false} CompiledNamesPresent(ts: TemplateSet, walk: seq<WalkEntry>, exts: seq<string>, k: nat)
    requires k < |walk| && Matches(walk[k], exts)
    requires CompileWalk(ts, walk, exts).err.None?
    ensures walk[k].content.ReadOk? && walk[k].parse.Parsed?
    ensures TemplateName(walk[k].rel) in CompileWalk(ts, walk, exts).templates.defs
    ensures walk[k].parse.blocks.Keys <= CompileWalk(ts, walk, exts).templates.defs.Keys
    decreases k
  {
    match CompileEntry(ts, walk[0], exts)
    case Stop(s, err) =>
    case Continue(s) =>
      if k > 0 {
        CompiledNamesPresent(s, walk[1..], exts, k - 1);
      }
  }

  /**
   * Every template in the compiled set was there before the walk or was
   * defined by a matching, readable, parseable entry; this holds whether or
   * not the walk ended in an error.
   */
  lemma {:induction false} CompiledNamesOrigin(ts: TemplateSet, walk: seq<WalkEntry>, exts: seq<string>, n: string)
    requires n in CompileWalk(ts, walk, exts).templates.defs
    ensures n in ts.defs || exists k :: 0 <= k < |walk| && Contributes(walk[k], exts, n)
    decreases |walk|
  {
    if walk != [] {
      WalkStep(ts, walk, exts);
      var step := CompileEntry(ts, walk[0], exts);
      if step.Continue? {
        var rest := walk[1..];
        CompiledNamesOrigin(step.templates, rest, exts, n);
        if n in step.templates.defs && n !in ts.defs {
          EntryOrigin(ts, walk[0], exts, n);
        } else if n !in step.templates.defs {
          var k :| 0 <= k < |rest| && Contributes(rest[k], exts, n);
          assert rest[k] == walk[k + 1];
        }
      }
    }
  }

  /** The error a failing entry raises: its read failure, else its parse failure. */
  function FailureOf(e: WalkEntry): Error
    requires e.content.ReadFailed? || e.parse.ParseFailed?
  {
    if e.content.ReadFailed? then ReadError(e.content.reason) else ParseError(e.parse.reason)
  }

  /**
   * A walk that ends in an error ends at its first failing entry: the entries
   * before it compiled without error, that entry's read or parse failure is
   * the error returned, and the set holds what the earlier entries defined.
   */
  lemma {:induction false} CompileFirstError(ts: TemplateSet, walk: seq<WalkEntry>, exts: seq<string>)
    returns (k: nat)
    requires CompileWalk(ts, walk, exts).err.Some?
    ensures k < |walk| && Matches(walk[k], exts)
    ensures walk[k].content.ReadFailed? || walk[k].parse.ParseFailed?
    ensures CompileWalk(ts, walk[..k], exts).err.None?
    ensures CompileWalk(ts, walk, exts).templates == CompileWalk(ts, walk[..k], exts).templates
    ensures CompileWalk(ts, walk, exts).err == Some(FailureOf(walk[k]))
    decreases |walk|
  {
    WalkStep(ts, walk, exts);
    var step := CompileEntry(ts, walk[0], exts);
    if step.Stop? {
      k := 0;
      EntryFailure(ts, walk[0], exts);
    } else {
      var j := CompileFirstError(step.templates, walk[1..], exts);
      k := j + 1;
      var pre := walk[..k];
      assert pre[0] == walk[0] && pre[1..] == walk[1..][..j];
      WalkStep(ts, pre, exts);
      assert walk[k] == walk[1..][j];
    }
  }

  /** An entry that stops the walk matches, failed to read or parse, and reports that failure. */
  lemma EntryFailure(ts: TemplateSet, e: WalkEntry, exts: seq<string>)
    requires CompileEntry(ts, e, exts).Stop?
    ensures Matches(e, exts)
    ensures e.content.ReadFailed? || e.parse.ParseFailed?
    ensures CompileEntry(ts, e, exts).err == FailureOf(e)
  {
  }

  /**
   * A walk in which every matching file can be read and parsed compiles
   * without error: skipped entries never raise one.
   */
  lemma {:induction false} CleanWalkSucceeds(ts: TemplateSet, walk: seq<WalkEntry>, exts: seq<string>)
    requires forall k :: 0 <= k < |walk| && Matches(walk[k], exts) ==>
               walk[k].content.ReadOk? && walk[k].parse.Parsed?
    ensures CompileWalk(ts, walk, exts).err.None?
    decreases |walk|
  {
    if walk != [] {
      assert Matches(walk[0], exts) ==> walk[0].content.ReadOk? && walk[0].parse.Parsed?;
      match CompileEntry(ts, walk[0], exts)
      case Stop(s, err) =>
      case Continue(s) =>
        forall k | 0 <= k < |walk[1..]| && Matches(walk[1..][k], exts)
          ensures walk[1..][k].content.ReadOk? && walk[1..][k].parse.Parsed?
        {
          assert walk[1..][k] == walk[k + 1];
        }
        CleanWalkSucceeds(s, walk[1..], exts);
    }
  }

  /** The text an entry that was read and parsed gives template `n`: its block's, or else its own. */
  function TextOf(e: WalkEntry, n: string): string
    requires e.content.ReadOk? && e.parse.Parsed?
  {
    if n in e.parse.blocks then e.parse.blocks[n] else e.content.source
  }

  /** An entry that contributes `n` gives it its text. */
  lemma EntryText(ts: TemplateSet, e: WalkEntry, exts: seq<string>, n: string)
    requires Contributes(e, exts, n)
    ensures CompileEntry(ts, e, exts).Continue?
    ensures n in CompileEntry(ts, e, exts).templates.defs
    ensures CompileEntry(ts, e, exts).templates.defs[n] == TextOf(e, n)
  {
    var r := Define(ts, TemplateName(e.rel), e.content.source, e.parse.blocks);
    assert CompileEntry(ts, e, exts) == Continue(r);
    DefineText(ts, TemplateName(e.rel), e.content.source, e.parse.blocks, n);
  }

  /** A name an entry adds is one it contributes. */
  lemma EntryOrigin(ts: TemplateSet, e: WalkEntry, exts: seq<string>, n: string)
    requires n in CompileEntry(ts, e, exts).templates.defs && n !in ts.defs
    ensures Contributes(e, exts, n)
  {
    if Matches(e, exts) && e.content.ReadOk? && e.parse.Parsed? {
      var r := Define(ts, TemplateName(e.rel), e.content.source, e.parse.blocks);
      assert CompileEntry(ts, e, exts) == Continue(r);
    }
  }

  /** An entry that does not contribute `n` leaves its text alone. */
  lemma EntryKeeps(ts: TemplateSet, e: WalkEntry, exts: seq<string>, n: string)
    requires !Contributes(e, exts, n) && n in ts.defs
    ensures n in CompileEntry(ts, e, exts).templates.defs
    ensures CompileEntry(ts, e, exts).templates.defs[n] == ts.defs[n]
  {
    if Matches(e, exts) && e.content.ReadOk? && e.parse.Parsed? {
      var r := Define(ts, TemplateName(e.rel), e.content.source, e.parse.blocks);
      assert CompileEntry(ts, e, exts) == Continue(r);
      DefineText(ts, TemplateName(e.rel), e.content.source, e.parse.blocks, n);
    }
  }

  /** A name no entry of the walk contributes keeps its text, whether or not the walk fails. */
  lemma {:induction false} UncontributedNameKept(ts: TemplateSet, walk: seq<WalkEntry>, exts: seq<string>, n: string)
    requires n in ts.defs
    requires forall e :: e in walk ==> !Contributes(e, exts, n)
    ensures n in CompileWalk(ts, walk, exts).templates.defs
    ensures CompileWalk(ts, walk, exts).templates.defs[n] == ts.defs[n]
    decreases |walk|
  {
    if walk != [] {
      EntryKeeps(ts, walk[0], exts, n);
      var step := CompileEntry(ts, walk[0], exts);
      if step.Continue? {
        UncontributedNameKept(step.templates, walk[1..], exts, n);
      }
    }
  }

  /** One step of the walk: an entry that does not stop it hands its set to the rest of the walk. */
  lemma WalkStep(ts: TemplateSet, walk: seq<WalkEntry>, exts: seq<string>)
    requires walk != []
    ensures var step := CompileEntry(ts, walk[0], exts);
      && (step.Stop? ==> CompileWalk(ts, walk, exts) == Compiled(ts, Some(step.err)))
      && (step.Continue? ==> CompileWalk(ts, walk, exts) == CompileWalk(step.templates, walk[1..], exts))
  {
  }

  /**
   * After a walk that raised no error, a template holds the text the last
   * entry contributing it gave it: later files and blocks replace earlier
   * definitions of the same name.
   */
  lemma {:induction false} CompiledNameText(ts: TemplateSet, walk: seq<WalkEntry>, exts: seq<string>, n: string, k: nat)
    requires CompileWalk(ts, walk, exts).err.None?
    requires k < |walk| && Contributes(walk[k], exts, n)
    requires forall e :: e in walk[k + 1..] ==> !Contributes(e, exts, n)
    ensures n in CompileWalk(ts, walk, exts).templates.defs
    ensures CompileWalk(ts, walk, exts).templates.defs[n] == TextOf(walk[k], n)
    decreases k
  {
    WalkStep(ts, walk, exts);
    var next := CompileEntry(ts, walk[0], exts).templates;
    var rest := walk[1..];
    if k == 0 {
      EntryText(ts, walk[0], exts, n);
      UncontributedNameKept(next, rest, exts, n);
    } else {
      assert rest[k - 1] == walk[k] && rest[k..] == walk[k + 1..];
      CompiledNameText(next, rest, exts, n, k - 1);
    }
  }
}

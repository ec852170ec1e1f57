/**
 * How a walked file's relative path becomes a template name
 * (render.go, compileTemplatesFromDir, lines 165-184).
 * The model is of a Unix build: the path separator is '/', so
 * filepath.ToSlash leaves a name unchanged.
 */
module Paths {

  /** The operating system's path separator. */
  const Separator: char := '/'

  /**
   * filepath.Ext: the suffix of `path` that starts at its final '.', provided
   * that dot lies in the last path element; "" when the last element has no dot.
   */
  function Ext(path: string): (e: string)
    ensures |e| <= |path| && e == path[|path| - |e|..]
    ensures e != "" ==> e[0] == '.' && '.' !in e[1..] && Separator !in e
    decreases |path|
  {
    if path == "" then ""
    else
      var n := |path| - 1;
      if path[n] == Separator then ""
      else if path[n] == '.' then path[n..]
      else
        var e := Ext(path[..n]);
        if e == "" then "" else e + [path[n]]
  }

  /**
   * Ext finds the last dot of the last path element: when it gives "", no
   * character after the last separator is a '.'.
   */
  lemma {:induction false} ExtEmptyMeansNoDot(path: string, i: nat)
    requires i < |path| && Separator !in path[i..]
    requires Ext(path) == ""
    ensures path[i] != '.'
    decreases |path|
  {
    var n := |path| - 1;
    assert path[n] == path[i..][n - i];
    if i < n {
      assert path[..n][i..] == path[i..n];
      assert path[i..] == path[i..n] + [path[n]];
      ExtEmptyMeansNoDot(path[..n], i);
    }
  }

  /**
   * The extension the compiler matches against the allow-list: "" unless the
   * relative path contains a '.', and then filepath.Ext of it. The guard never
   * changes the outcome: the result is always filepath.Ext of the path.
   */
  function TemplateExt(rel: string): (ext: string)
    ensures ext == Ext(rel)
    ensures '.' !in rel ==> ext == ""
  {
    if '.' in rel then Ext(rel) else ""
  }

  /**
   * The template name registered for a file: its relative path with the
   * matched extension cut off the end. Appending the extension back gives
   * the relative path.
   */
  function TemplateName(rel: string): (name: string)
    ensures name + TemplateExt(rel) == rel
    ensures |name| == |rel| - |TemplateExt(rel)|
  {
    var ext := TemplateExt(rel);
    assert rel[..|rel| - |ext|] + rel[|rel| - |ext|..] == rel;
    rel[..|rel| - |ext|]
  }

  /**
   * Two files with the same name and the same extension are the same file:
   * the name and extension together determine the relative path.
   */
  lemma NameAndExtDetermineFile(rel1: string, rel2: string)
    requires TemplateName(rel1) == TemplateName(rel2)
    requires TemplateExt(rel1) == TemplateExt(rel2)
    ensures rel1 == rel2
  {
  }

  /** A '.' that sits only in a directory component gives no extension. */
  lemma {:induction false} DotInDirectoryOnly(dir: string, file: string)
    requires '.' !in file
    ensures Ext(dir + [Separator] + file) == ""
  {
    var p := dir + [Separator] + file;
    var n := |p| - 1;
    if file == "" {
      assert p[n] == Separator;
    } else {
      var m := |file| - 1;
      assert p[n] == file[m] && p[n] != '.';
      assert p[..n] == dir + [Separator] + file[..m];
      DotInDirectoryOnly(dir, file[..m]);
    }
  }

  /**
   * A file name ending in ".<letters without dot or separator>" has exactly
   * that extension, and its template name is what precedes it.
   */
  lemma {:induction false} ExtOfSuffix(stem: string, ext: string)
    requires ext != "" && ext[0] == '.' && '.' !in ext[1..] && Separator !in ext
    ensures Ext(stem + ext) == ext
    ensures TemplateName(stem + ext) == stem
    decreases |ext|
  {
    var p := stem + ext;
    var n := |p| - 1;
    var m := |ext| - 1;
    assert p[n] == ext[m];
    if m == 0 {
      assert p[n..] == ext;
    } else {
      assert ext[m] in ext[1..];
      assert p[..n] == stem + ext[..m];
      assert ext[..m][1..] == ext[1..m];
      ExtOfSuffix(stem, ext[..m]);
    }
    assert '.' in p by { assert p[|stem|] == '.'; }
  }
}

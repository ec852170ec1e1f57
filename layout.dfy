/**
 * The layout functions (render.go, layoutFuncs, lines 210-233): yield,
 * current and partial, bound to the page a layout call renders. What each
 * one does is a decision over the names the template set defines; running
 * a template is left to the template engine.
 */
module Layout {

  /** A call a layout template makes. */
  datatype LayoutCall = Yield | Current | Partial(partialName: string)

  /** What the call does: execute a template by name, or return a string without executing anything. */
  datatype LayoutAction = Execute(name: string) | Return(text: string)

  /** The name partial tries first: "<partialName>-<page>". */
  function SuffixedName(partialName: string, page: string): (n: string)
    ensures |n| == |partialName| + 1 + |page|
    ensures n[..|partialName|] == partialName && n[|partialName|] == '-' && n[|partialName| + 1..] == page
  {
    partialName + "-" + page
  }

  /**
   * partial: the suffixed name is tried first; the bare name is used only when
   * the suffixed one is undefined and fallback without the suffix is enabled.
   * The chosen name is executed when partials are required or it is defined;
   * otherwise the call returns "" and no error.
   */
  function ResolvePartial(defined: set<string>, page: string, partialName: string,
                          withoutSuffix: bool, require: bool): (a: LayoutAction)
    // A defined suffixed partial always wins.
    ensures SuffixedName(partialName, page) in defined ==> a == Execute(SuffixedName(partialName, page))
    // The bare name is executed only as the fallback.
    ensures a.Execute? && a.name != SuffixedName(partialName, page) ==>
              a.name == partialName && withoutSuffix && SuffixedName(partialName, page) !in defined
    // In lenient mode, nothing undefined is ever executed.
    ensures !require && a.Execute? ==> a.name in defined
    // In strict mode, something is always executed.
    ensures require ==> a.Execute?
    // The name chosen for execution: the bare name exactly when the suffixed one is undefined and fallback is on.
    ensures a.Execute? ==>
              a.name == if SuffixedName(partialName, page) !in defined && withoutSuffix
                        then partialName else SuffixedName(partialName, page)
    // A partial is skipped exactly when it is optional and neither candidate applies.
    ensures a == Return("") <==>
              !require && SuffixedName(partialName, page) !in defined &&
              !(withoutSuffix && partialName in defined)
    ensures a.Return? ==> a.text == ""
  {
    var full := SuffixedName(partialName, page);
    var name := if full !in defined && withoutSuffix then partialName else full;
    if require || name in defined then Execute(name) else Return("")
  }

  /**
   * The layout functions bound to `page`: yield executes the page itself,
   * current returns its name, partial resolves as above.
   */
  function LayoutFunc(defined: set<string>, page: string, withoutSuffix: bool, require: bool,
                      call: LayoutCall): (a: LayoutAction)
    ensures call == Yield ==> a == Execute(page)
    ensures call == Current ==> a == Return(page)
    ensures call.Partial? ==> a == ResolvePartial(defined, page, call.partialName, withoutSuffix, require)
  {
    match call
    case Yield => Execute(page)
    case Current => Return(page)
    case Partial(p) => ResolvePartial(defined, page, p, withoutSuffix, require)
  }

  /**
   * In strict mode with the suffixed name undefined, fallback executes the
   * bare name whether or not it is defined (when it is not, the engine then
   * reports it undefined); without fallback the suffixed name is executed.
   */
  lemma StrictFallbackExecutesBareName(defined: set<string>, page: string, partialName: string)
    requires SuffixedName(partialName, page) !in defined
    ensures ResolvePartial(defined, page, partialName, true, true) == Execute(partialName)
    ensures ResolvePartial(defined, page, partialName, false, true) == Execute(SuffixedName(partialName, page))
  {
  }

  /** A page-scoped partial: "footer" on page "home" runs "footer-home" whenever that is defined. */
  lemma FooterHomeScenario(defined: set<string>)
    requires "footer-home" in defined
    ensures forall ws: bool, rq: bool :: ResolvePartial(defined, "home", "footer", ws, rq) == Execute("footer-home")
  {
    assert SuffixedName("footer", "home") == "footer-home";
  }
}

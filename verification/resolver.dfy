/**
 * The esbuild resolve callback that App.Build installs: the entry itself and
 * CSS imported from CSS are resolved by esbuild as usual; every other import
 * is left external, so the browser fetches it as a module of its own, and a
 * CSS import is redirected to its "?module" form.
 */
module Resolver {
  import opened Strings

  /** esbuild's OnResolveResult, reduced to the two fields the callback sets. */
  datatype ResolveResult = ResolveResult(path: string, external: bool)

  /** The empty result: esbuild resolves the import itself. */
  const Default := ResolveResult("", false)

  const CssSuffix := ".css"

  const ModuleQuery := "module"

  /** The path a CSS import p with query qs is rewritten to. */
  function CssModulePath(p: string, qs: string): string {
    p + "?" + ModuleQuery + (if qs != "" then "&" + qs else "")
  }

  /** The callback for an import of importPath while building filename. */
  function Resolve(filename: string, importPath: string): (r: ResolveResult)
    ensures importPath == filename ==> r == Default
    ensures HasSuffix(filename, CssSuffix) && HasSuffix(importPath, CssSuffix) ==> r == Default
    ensures r != Default ==> r.external
    ensures r.external ==> (r.path != "" <==> HasSuffix(SplitByFirstByte(importPath, '?').0, CssSuffix))
    ensures r.path != "" ==> r.external
    ensures r.external <==> importPath != filename && !(HasSuffix(filename, CssSuffix) && HasSuffix(importPath, CssSuffix))
  {
    if importPath == filename || (HasSuffix(filename, CssSuffix) && HasSuffix(importPath, CssSuffix)) then
      Default
    else
      var (p, qs) := SplitByFirstByte(importPath, '?');
      if HasSuffix(p, CssSuffix) then ResolveResult(CssModulePath(p, qs), true)
      else ResolveResult("", true)
  }

  /**
   * A rewritten CSS import keeps its path and query: splitting the new path
   * at its first '?' gives back the original path, and a query that starts
   * with "module" followed by the original query, if there was one.
   */
  lemma ResolvedCssRoundTrip(filename: string, importPath: string)
    requires Resolve(filename, importPath).path != ""
    ensures var (p, qs) := SplitByFirstByte(importPath, '?');
      SplitByFirstByte(Resolve(filename, importPath).path, '?')
      == (p, if qs == "" then ModuleQuery else ModuleQuery + "&" + qs)
  {
    var (p, qs) := SplitByFirstByte(importPath, '?');
    var tail := if qs == "" then ModuleQuery else ModuleQuery + "&" + qs;
    assert CssModulePath(p, qs) == p + ['?'] + tail;
    SplitAtFirst(p, '?', tail);
  }
}

/**
 * The TypeScript variant of the plugin factory: the default
 * `{ pattern: DefaultPattern }` replaces the whole options
 * argument, and only when it is left out. A passed options object is used as
 * it is, so its `pattern` is spliced with no fallback; an absent pattern is
 * interpolated by the template literal as the text `undefined`.
 */
module WorkbenchPluginTs {
  import opened Wrappers
  import opened WorkbenchPlugin
  import WorkbenchPluginJs

  /** What a template literal makes of a string-or-undefined value. */
  function Interpolate(v: Option<string>): (t: string)
    ensures v.Some? ==> t == v.value
    ensures v.None? ==> t == "undefined"
  {
    match v
    case None => "undefined"
    case Some(s) => s
  }

  /** `svelteWorkbench(options)`; `None` stands for the argument left out or passed as `undefined`. */
  function SvelteWorkbench(options: Option<PluginOptions>): (p: Plugin)
    ensures p.name == PluginName
    ensures options.None? ==> p.pattern == DefaultPattern
    ensures options.Some? && options.value.pattern.Some? ==> p.pattern == options.value.pattern.value
    ensures options.Some? && options.value.pattern.None? ==> p.pattern == "undefined"
  {
    var o := match options case None => PluginOptions(Some(DefaultPattern)) case Some(o) => o;
    Plugin(PluginName, Interpolate(o.pattern))
  }

  /** The text of the plugin's glob literal is the pattern this factory chose, up to its first `'`. */
  lemma PluginGlobLiteral(options: Option<PluginOptions>)
    ensures GlobLiteral(ModuleSource(SvelteWorkbench(options).pattern)) == Some(UpToQuote(SvelteWorkbench(options).pattern))
  {
    GlobLiteralOfModuleSource(SvelteWorkbench(options).pattern);
  }

  /**
   * The two variants choose the same pattern exactly when the argument is
   * left out or carries a non-empty pattern; an empty or absent pattern
   * falls back to the default only in the JavaScript variant.
   */
  lemma VariantsAgree(options: Option<PluginOptions>)
    ensures SvelteWorkbench(options).pattern == WorkbenchPluginJs.SvelteWorkbench(options).pattern
            <==> options.None? || WorkbenchPluginJs.Truthy(options.value.pattern)
    ensures SvelteWorkbench(options).name == WorkbenchPluginJs.SvelteWorkbench(options).name
  {
    if options.Some? && options.value.pattern.None? {
      assert "undefined" != DefaultPattern by {
        assert |"undefined"| != |DefaultPattern|;
      }
    }
  }
}

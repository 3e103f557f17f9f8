/**
 * The JavaScript variant of the plugin factory: the options object defaults
 * to `{}` and the pattern falls back to the default whenever
 * `options.pattern` is falsy, which for a string means absent, `undefined`
 * or empty.
 */
module WorkbenchPluginJs {
  import opened Wrappers
  import opened WorkbenchPlugin

  /** `options.pattern` once the parameter default `{}` has applied. */
  function PatternOption(options: Option<PluginOptions>): (r: Option<string>) {
    match options
    case None => None
    case Some(o) => o.pattern
  }

  /** JavaScript truthiness of a string-or-undefined value. */
  predicate Truthy(v: Option<string>) {
    v.Some? && v.value != ""
  }

  /** `svelteWorkbench(options)`; `None` stands for the argument left out or passed as `undefined`. */
  function SvelteWorkbench(options: Option<PluginOptions>): (p: Plugin)
    ensures p.name == PluginName
    ensures p.pattern != ""
    ensures options.None? ==> p.pattern == DefaultPattern
    ensures options.Some? && options.value.pattern.None? ==> p.pattern == DefaultPattern
    ensures options.Some? && options.value.pattern == Some("") ==> p.pattern == DefaultPattern
    ensures options.Some? && options.value.pattern.Some? && options.value.pattern.value != ""
            ==> p.pattern == options.value.pattern.value
  {
    var pattern := if Truthy(PatternOption(options)) then PatternOption(options).value else DefaultPattern;
    Plugin(PluginName, pattern)
  }

  /** The text of the plugin's glob literal is the pattern this factory chose, up to its first `'`. */
  lemma PluginGlobLiteral(options: Option<PluginOptions>)
    ensures GlobLiteral(ModuleSource(SvelteWorkbench(options).pattern)) == Some(UpToQuote(SvelteWorkbench(options).pattern))
  {
    GlobLiteralOfModuleSource(SvelteWorkbench(options).pattern);
  }
}

/**
 * The virtual-module resolver shared by both variants of the workbench
 * plugin: the reserved public id `virtual:workbench`, its internal id, and the
 * two hooks `resolveId` and `load`. The generated module source calls the
 * host's `import.meta.glob` with the configured pattern spliced in verbatim.
 */
module WorkbenchPlugin {
  import opened Wrappers
  import opened Text

  /** The id a preview UI imports. */
  const PublicId: string := "virtual:workbench"

  /** The id the resolver hands back: the public id behind a NUL character. */
  const InternalId: string := "\0" + PublicId

  const PluginName: string := "svelte-workbench-plugin"

  /** The pattern used when the caller supplies none. */
  const DefaultPattern: string := "/src/**/preview/*.svelte"

  /** The generated source up to the glob call, which starts on a fresh line. */
  const Lead: string := "\n          const globResult = "

  /** The call that opens the single-quoted pattern literal. */
  const GlobOpen: string := "import.meta.glob('"

  const Quote: string := "'"

  /** Everything after the pattern: the closing quote and the default export. */
  const Suffix: string :=
    Quote + ");\n          \n          export default Object.entries(globResult).map(([path, loader]) => ({\n            path,\n            component: loader\n          }));\n        "

  /** What the caller passes to the factory; `pattern` is `None` when absent or `undefined`. */
  datatype PluginOptions = PluginOptions(pattern: Option<string>)

  /** The plugin object: its name and the pattern text its `load` hook splices in. */
  datatype Plugin = Plugin(name: string, pattern: string)

  /** The internal id is never importable as the public id, and differs from it only by the NUL in front. */
  lemma InternalIdIsDistinct()
    ensures InternalId != PublicId
    ensures InternalId[0] == '\0' && InternalId[1..] == PublicId
    ensures '\0' !in PublicId
  {
  }

  /** The `resolveId` hook: exact-string match on the public id, nothing for every other id. */
  function Resolve(id: string): (r: Option<string>)
    ensures r.Some? <==> id == PublicId
    ensures r.Some? ==> r.value == InternalId
  {
    if id == PublicId then Some(InternalId) else None
  }

  /** The module text `load` returns for the internal id. */
  function ModuleSource(pattern: string): (src: string)
    ensures |src| == |Lead| + |GlobOpen| + |pattern| + |Suffix|
  {
    Lead + GlobOpen + pattern + Suffix
  }

  /** The `load` hook: source only for the internal id, nothing otherwise (the public id included). */
  function Load(pattern: string, id: string): (r: Option<string>)
    ensures r.Some? <==> id == InternalId
    ensures r.Some? ==> r.value == ModuleSource(pattern)
  {
    if id == InternalId then Some(ModuleSource(pattern)) else None
  }

  /** The text up to the first `'`, or all of it when there is none. */
  function UpToQuote(s: string): (r: string)
    ensures |r| <= |s| && r == s[..|r|]
  {
    match IndexOf(s, Quote)
    case None => s
    case Some(j) => s[..j]
  }

  /**
   * The characters between the first `import.meta.glob('` in `src` and the
   * next `'`. Where they hold no backslash, line feed or carriage return, they
   * are
   * both the source text and the value of the string literal JavaScript reads
   * there; a backslash would start an escape, which this does not model.
   */
  function GlobLiteral(src: string): (r: Option<string>) {
    match IndexOf(src, GlobOpen)
    case None => None
    case Some(k) =>
      var rest := src[k + |GlobOpen|..];
      match IndexOf(rest, Quote)
      case None => None
      case Some(j) => Some(rest[..j])
  }

  /** A one-character pattern occurs exactly where that character is. */
  lemma OccursAtQuote(s: string, i: nat)
    ensures OccursAt(s, Quote, i) <==> i < |s| && s[i] == '\''
  {
    if i < |s| {
      assert s[i..i + 1] == [s[i]];
    }
  }

  /**
   * Importing the public id resolves to the internal id, and loading that
   * yields the module source; any other id yields nothing, and `load` asked
   * for the public id itself yields nothing.
   */
  lemma LoadAfterResolve(pattern: string, x: string)
    ensures (match Resolve(x) case None => None case Some(i) => Load(pattern, i))
            == (if x == PublicId then Some(ModuleSource(pattern)) else None)
    ensures Load(pattern, PublicId) == None
  {
    InternalIdIsDistinct();
  }

  /** The splice loses nothing: the pattern can be read back from its place in the source. */
  lemma ModuleSourceSplicesVerbatim(pattern: string)
    ensures ModuleSource(pattern)[|Lead + GlobOpen|..|Lead + GlobOpen| + |pattern|] == pattern
    ensures ModuleSource(pattern)[..|Lead + GlobOpen|] == Lead + GlobOpen
    ensures ModuleSource(pattern)[|Lead + GlobOpen| + |pattern|..] == Suffix
  {
    assert ModuleSource(pattern) == (Lead + GlobOpen) + pattern + Suffix;
  }

  /** Different patterns give different sources. */
  lemma ModuleSourceInjective(p: string, q: string)
    requires ModuleSource(p) == ModuleSource(q)
    ensures p == q
  {
    ModuleSourceSplicesVerbatim(p);
    ModuleSourceSplicesVerbatim(q);
    assert |p| == |q|;
  }

  /** The glob call's first character does not occur in the lead. */
  lemma LeadHasNoGlobStart()
    ensures GlobOpen[0] !in Lead
  {
  }

  /** The first `import.meta.glob('` is the one right after a lead that holds no `i`. */
  lemma GlobCallFollowsLead(lead: string, tail: string)
    requires GlobOpen[0] !in lead
    ensures IndexOf(lead + GlobOpen + tail, GlobOpen) == Some(|lead|)
  {
    var k := |lead|;
    var head := lead + GlobOpen;
    assert head[k..k + |GlobOpen|] == GlobOpen;
    forall i: nat | i < k ensures !OccursAt(head, GlobOpen, i) {
      assert head[i] == lead[i];
    }
    FirstOccurrenceExtends(head, tail, GlobOpen, k);
    IndexOfSpec(head + tail, GlobOpen);
  }

  /** After the opening quote, the first `'` is the pattern's first, or else the one that opens `tail`. */
  lemma QuoteAfterPattern(pattern: string, tail: string)
    requires |tail| > 0 && tail[0] == '\''
    ensures IndexOf(pattern + tail, Quote) == Some(|UpToQuote(pattern)|)
    ensures (pattern + tail)[..|UpToQuote(pattern)|] == UpToQuote(pattern)
  {
    var rest := pattern + tail;
    IndexOfSpec(pattern, Quote);
    IndexOfSpec(rest, Quote);
    match IndexOf(pattern, Quote)
    case Some(j) =>
      FirstOccurrenceExtends(pattern, tail, Quote, j);
      assert rest[..j] == pattern[..j];
    case None =>
      forall i: nat | i < |pattern| ensures !OccursAt(rest, Quote, i) {
        OccursAtQuote(rest, i);
        OccursAtQuote(pattern, i);
        assert rest[i] == pattern[i];
      }
      OccursAtQuote(rest, |pattern|);
      assert IsFirstOccurrence(rest, Quote, |pattern|);
      assert rest[..|pattern|] == pattern;
  }

  /**
   * Behind any lead without an `i` and before any tail that opens with `'`,
   * the literal read after `import.meta.glob('` is the pattern up to its own
   * first `'`.
   */
  lemma GlobLiteralOfSplice(lead: string, pattern: string, tail: string)
    requires GlobOpen[0] !in lead
    requires |tail| > 0 && tail[0] == '\''
    ensures GlobLiteral(lead + GlobOpen + pattern + tail) == Some(UpToQuote(pattern))
  {
    var src := lead + GlobOpen + pattern + tail;
    assert src == lead + GlobOpen + (pattern + tail);
    GlobCallFollowsLead(lead, pattern + tail);
    assert src[|lead| + |GlobOpen|..] == pattern + tail;
    QuoteAfterPattern(pattern, tail);
  }

  /**
   * The text between `import.meta.glob('` and the next `'` is the pattern
   * up to its first `'`: since the pattern is spliced without escaping, a
   * quote in a pattern without backslashes ends the literal early.
   */
  lemma GlobLiteralOfModuleSource(pattern: string)
    ensures GlobLiteral(ModuleSource(pattern)) == Some(UpToQuote(pattern))
  {
    LeadHasNoGlobStart();
    assert Suffix[0] == Quote[0];
    GlobLiteralOfSplice(Lead, pattern, Suffix);
  }

  /**
   * A pattern free of `'` is exactly the text between `import.meta.glob('`
   * and the next `'`; without backslashes, line feeds and carriage returns it is
   * also
   * the value the call receives.
   */
  lemma GlobLiteralIsPattern(pattern: string)
    requires '\'' !in pattern
    ensures GlobLiteral(ModuleSource(pattern)) == Some(pattern)
  {
    GlobLiteralOfModuleSource(pattern);
    IndexOfSpec(pattern, Quote);
    if IndexOf(pattern, Quote).Some? {
      OccursAtQuote(pattern, IndexOf(pattern, Quote).value);
    }
  }
}

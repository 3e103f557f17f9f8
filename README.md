# svelte-workbench: virtual workbench module and HTML entry rewrite

This project models the two pieces of logic of the Svelte component
workbench that run inside the Vite dev server, and proves their properties.

1. **The virtual-module resolver** (`workbench-plugin.js` and its typed twin
   `workbench-plugin.ts`). A factory fixes a glob pattern and returns a
   plugin named `svelte-workbench-plugin`. Its `resolveId` hook maps the exact
   public id `virtual:workbench` to the internal id `\0virtual:workbench`.
   Its `load` hook returns generated module source for the internal id only.
   That source calls `import.meta.glob('<pattern>')` with the pattern spliced
   in verbatim, then default-exports the `{ path, component }` entries. The
   two variants differ in how the pattern defaults:
   - the JavaScript factory falls back to `/src/**/preview/*.svelte` whenever `options.pattern` is falsy;
   - the TypeScript factory applies the default only when the whole options argument is left out.
2. **The `serve-workbench-html` middleware** (`vite.workbench.config.js`).
   A request for exactly `/` or `/index.html` is answered with the
   package's `index.html`. The page is first run through the dev server's
   `transformIndexHtml`. Then its first `src="/src/main.ts"` is replaced by
   `src="/@fs<resolved src/main.ts>"`. The response gets `Content-Type:
   text/html` and is ended. Every other request calls `next()`.

Modules:
- `Wrappers` (wrappers.dfy): `Option`, which stands for JavaScript's `undefined`.
- `Text` (text.dfy): `indexOf` and the string-pattern form of `String.prototype.replace`, with their specification by first occurrence.
- `WorkbenchPlugin` (workbench_plugin.dfy): ids, hooks and the generated source shared by both variants.
- `WorkbenchPluginJs` (workbench_plugin_js.dfy): the JavaScript factory.
- `WorkbenchPluginTs` (workbench_plugin_ts.dfy): the TypeScript factory.
- `ServeWorkbenchHtml` (serve_workbench_html.dfy): the middleware, with the response object as a class and the handler as a method.

The hooks and every function here hold no mutable state. Repeated `load`
calls with the same id therefore give identical text, because they are
functions of their arguments.

Foreign calls are parameters. `__dirname`, `path.resolve`,
`fs.readFileSync` and `server.transformIndexHtml` are fields of the `Host`
datatype. The model makes no assumption about what they compute.
`TemplatePath` takes no URL, so the template read does not depend on the
request. `ServedHtml` composes the steps in the source's order: read, then
transform, then replace.

The code, as written, and so the model:
- it replaces the entry after `transformIndexHtml` has run on the template;
- it does not normalise path separators in the entry URL;
- it matches only the literal `src="/src/main.ts"`, not a script tag in any quoting or attribute order;
- when the placeholder is missing it serves the transformed page unchanged, with no diagnostic;
- it has no error path to `next(error)`;
- it compares the URL exactly and strips no query string.

## Model

| member | source | states |
|---|---|---|
| WorkbenchPlugin.InternalIdIsDistinct | workbench-plugin.js:5-6 | the internal id is a NUL followed by the public id, so it differs from the public id and from anything importable by that name |
| WorkbenchPlugin.Resolve | workbench-plugin.js:10-14 | `resolveId` returns a result exactly when the id equals `virtual:workbench`, and that result is the internal id; prefixes, extensions and every other id give nothing |
| WorkbenchPlugin.ModuleSource | workbench-plugin.js:17-24 | the generated module text is as long as the fixed lead, glob call, pattern and suffix together; its layout is read back by `ModuleSourceSplicesVerbatim` |
| WorkbenchPlugin.Load | workbench-plugin.js:15-26 | `load` returns source exactly when the id is the internal id, and that source is the module text around the pattern |
| WorkbenchPlugin.LoadAfterResolve | workbench-plugin.js:10-26 | loading the result of resolving `x` yields the module source iff `x` is the public id; loading the public id itself yields nothing |
| WorkbenchPlugin.ModuleSourceSplicesVerbatim | workbench-plugin.js:17-24 | the generated text is the fixed lead and glob call, then the pattern character for character, then the fixed suffix |
| WorkbenchPlugin.ModuleSourceInjective | workbench-plugin.js:17-24 | no truncation or collision: different patterns give different module texts |
| WorkbenchPlugin.GlobLiteralOfSplice | workbench-plugin.js:17-24 | for any text before the glob call that holds no `i` and any text after the pattern that opens with `'`, the text between `import.meta.glob('` and the next `'` is the pattern up to its first `'` |
| WorkbenchPlugin.GlobLiteralOfModuleSource | workbench-plugin.js:18 | in the generated source, the text between the first `import.meta.glob('` and the next `'` is the pattern up to its first `'`; with no backslash in the pattern, a quote in it therefore ends the literal early |
| WorkbenchPlugin.GlobLiteralIsPattern | workbench-plugin.js:18 | a pattern without `'` is exactly the text between `import.meta.glob('` and the next `'`; it is also the value the call receives when the pattern holds no backslash, line feed or carriage return |
| WorkbenchPluginJs.PatternOption | workbench-plugin.js:1-3 | `options.pattern` once the parameter default `{}` has applied: absent when the argument is left out |
| WorkbenchPluginJs.Truthy | workbench-plugin.js:3 | the truthiness that the logical-or fallback tests: a string that is present and non-empty |
| WorkbenchPluginJs.SvelteWorkbench | workbench-plugin.js:1-9 | the plugin is named `svelte-workbench-plugin`; its pattern is the default when the argument, or its `pattern`, is absent, `undefined` or empty, and otherwise the given pattern unchanged; it is never empty |
| WorkbenchPluginJs.PluginGlobLiteral | workbench-plugin.js:3-18 | the text of the JavaScript plugin's glob literal is its chosen pattern up to its first `'` |
| WorkbenchPluginTs.Interpolate | workbench-plugin.ts:19 | a template literal splices a string as it is and an absent value as the text `undefined` |
| WorkbenchPluginTs.SvelteWorkbench | workbench-plugin.ts:4-9 | the plugin is named `svelte-workbench-plugin`; the default pattern applies only when the argument is left out; a passed pattern is used as is, the empty one included, and an absent one becomes `undefined` |
| WorkbenchPluginTs.PluginGlobLiteral | workbench-plugin.ts:4-19 | the text of the TypeScript plugin's glob literal is its chosen pattern up to its first `'` |
| WorkbenchPluginTs.VariantsAgree | workbench-plugin.ts:4 | the two factories choose the same pattern iff the argument is left out or its pattern is a non-empty string, and always the same name |
| Text.IndexOf | vite.workbench.config.js:61 | a found index is a position where the pattern occurs |
| Text.IndexOfSpec | vite.workbench.config.js:61 | `IndexOf` returns `k` iff `k` is the least position where the pattern occurs, and nothing iff it occurs nowhere |
| Text.FirstOccurrenceExtends | vite.workbench.config.js:61 | appending text after a first occurrence leaves it the first occurrence |
| Text.ReplaceFirst | vite.workbench.config.js:61 | the result's length changes by the difference between replacement and pattern when the pattern occurs, and not at all otherwise |
| Text.ReplaceFirstAt | vite.workbench.config.js:61 | with the first occurrence at `k`, the result is the text before `k`, the replacement, and the text after the occurrence |
| Text.ReplaceFirstAbsent | vite.workbench.config.js:61 | a text without the pattern is returned unchanged |
| Text.ReplaceFirstKeepsLaterOccurrences | vite.workbench.config.js:61 | every later occurrence that starts after the first one ends is still there, shifted by the length difference |
| ServeWorkbenchHtml.IsWorkbenchPage | vite.workbench.config.js:48 | a request is intercepted iff its URL is exactly `/` or `/index.html` |
| ServeWorkbenchHtml.OnlyExactPathsIntercepted | vite.workbench.config.js:48 | `/index.html` followed by anything, a query string included, is not intercepted, and neither are `''` or `/foo` |
| ServeWorkbenchHtml.TemplatePath | vite.workbench.config.js:50 | the template is `index.html` resolved under the package directory; it takes no URL, so it is the same for every request |
| ServeWorkbenchHtml.TransformedTemplate | vite.workbench.config.js:51-55 | the template file's contents run through `transformIndexHtml` with the request URL |
| ServeWorkbenchHtml.EntryPath | vite.workbench.config.js:60 | the entry URL is `/@fs` directly followed by the resolved path of `src/main.ts`, character for character |
| ServeWorkbenchHtml.EntryAttribute | vite.workbench.config.js:61 | the replacement is `src="`, the entry path character for character, and a closing `"` |
| ServeWorkbenchHtml.RewriteEntry | vite.workbench.config.js:61 | the first `src="/src/main.ts"` is replaced by the entry attribute; a page without it comes back unchanged |
| ServeWorkbenchHtml.ServedHtml | vite.workbench.config.js:51-61 | the page is the transformed template with its entry rewritten: transform first, then replace |
| ServeWorkbenchHtml.ServedHtmlRetargetsFirstEntry | vite.workbench.config.js:51-61 | when the transformed page first holds the placeholder at `k`, the served page keeps the text before and after that occurrence and puts the entry attribute at `k` |
| ServeWorkbenchHtml.ServedHtmlWithoutPlaceholder | vite.workbench.config.js:55-61 | when the transform's output has no placeholder, it is served unchanged |
| ServeWorkbenchHtml.ServedHtmlDependsOnUrlThroughTransform | vite.workbench.config.js:55-61 | two requests whose transformed templates agree are served the same page: the URL reaches the page only through `transformIndexHtml` |
| ServeWorkbenchHtml.Response.constructor | vite.workbench.config.js:47 | a fresh response has no headers, an empty body, is not ended and has not called `next()` |
| ServeWorkbenchHtml.Response.SetHeader | vite.workbench.config.js:63 | on a response not yet ended, sets one header and changes nothing else |
| ServeWorkbenchHtml.Response.End | vite.workbench.config.js:64 | on a response not yet ended, appends the last chunk to the body and ends the response, changing nothing else |
| ServeWorkbenchHtml.Response.Next | vite.workbench.config.js:67 | counts one call of `next()` and changes nothing else |
| ServeWorkbenchHtml.Handle | vite.workbench.config.js:47-68 | an intercepted request, on a response not yet ended, gets `Content-Type: text/html`, the transformed-then-rewritten page as body, is ended and does not call `next()`; any other request calls `next()` exactly once and leaves headers, body and ended state untouched |

## Left out

- Registration of the middleware with `server.middlewares.use` and the rest of the Vite configuration in `vite.workbench.config.js` (port, `fs.allow`, alias, plugin list): declarative, with no behaviour of its own.
- `bin/workbench.js`, `vite.config.ts` and `src/vite-env.d.ts`: CLI bootstrapping, configuration and type declarations. The entry shapes (`WorkbenchEntry`, `WorkbenchConfig`) only describe what the generated module exports at run time.
- What `import.meta.glob` does at run time (file matching, entry order, hot-reload invalidation): a host primitive; the plugin only emits the text that calls it.
- `path.resolve`, `__dirname`, `fs.readFileSync` and `server.transformIndexHtml`: foreign calls, taken as arbitrary functions in `Host`. Their failures (a missing file, a throwing transform) are not modelled; the code has no handler for them.
- `async`/`await` scheduling and concurrent requests: each request is modelled as one uninterrupted call.
- Text.ReplaceFirst: does not model the `$` substitution patterns of `String.prototype.replace`; it inserts the replacement literally, which agrees with JavaScript whenever the entry path contains no `$`.
- WorkbenchPlugin.GlobLiteral: reads the text up to the next `'` and does not evaluate JavaScript string escapes. A backslash anywhere in the pattern changes what `import.meta.glob` receives (`\n` becomes a newline, `\'` a quote that does not end the literal), and a line feed or carriage return makes the generated module a syntax error; the lemmas about the literal speak of its text, and of its value only for patterns free of backslashes, line feeds and carriage returns.
- ServeWorkbenchHtml.Handle: an intercepted request on a response that has already ended is excluded by its precondition, as Node rejects `setHeader` and a second `end` there; the model does not state that error. Headers already sent by an earlier write, without ending, are not modelled either.
- WorkbenchPluginJs.SvelteWorkbench: models `options.pattern` as a string or `undefined`; other falsy values (`null`, `0`, `false`) and a `null` options argument are not modelled.
- WorkbenchPluginTs.SvelteWorkbench: reads `options.pattern` once, at construction; the source reads it at each `load`, so a caller that mutates its options object afterwards would see the change there.
- ServeWorkbenchHtml.Response.SetHeader: stores header names as given; Node's case-insensitive header names are not modelled.

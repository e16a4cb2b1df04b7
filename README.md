# nexus-ui build tool, modelled in Dafny

The nexus-ui repository has a small build-configuration builder in two
nearly identical copies: `GulpTool.js`, which is TypeScript-aware, and
`src/js/GulpTools.js`, the plain JavaScript copy. A gulpfile uses it to:

- describe JavaScript bundles with the fluent `JSBundle` record (source file,
  output name, exposed and external modules, lookup paths);
- collect those bundles, plus an optional Sass switch, in a `GulpTool` /
  `GulpTools` object;
- call `build()`, which registers the gulp tasks:
  - `clean`;
  - `css-debug`, `css-build` and `css-watch` when Sass is on;
  - `js-<name>-watch` and `js-<name>-build` for every bundle;
  - the aggregates `js-watch` and `js-build`;
  - the composites `watch` and `build`.

This project models both copies and proves what they promise.

Modules:

- `Wrappers`: `Option`.
- `JsObject`: the part of JavaScript ordinary-object semantics that the bundle
  dictionary relies on, `o[k] = v` followed by own-key enumeration as
  OrdinaryOwnPropertyKeys orders it in current editions of ECMAScript and in
  V8 (ECMAScript 2015, section 9.1.12, still put every integer index up to
  2^53 - 1 first):
  - array-index keys come first, in ascending numeric order;
  - every other key follows in creation order;
  - assigning an existing key keeps its position;
  - assigning `__proto__` creates no own key.
- `Bundles`: values shared by both copies:
  - the `||` defaulting of optional string arguments;
  - the `expose` record;
  - the lookup-path list;
  - the browserify options;
  - `BundleJob`, the snapshot of a bundle that a bundle task captures when
    `build()` creates it.
- `Gulp`: the gulp task registry as a class. `Register` plays
  `gulp.task(name, deps, fn)` and replaces an earlier task of the same name.
  Task callbacks are descriptors (`Clean`, `CompileSass`, `WatchSass`,
  `RunBundle`, `NoAction`) that record what the callback would do.
- `TaskGraph`: the tasks `build()` registers, as a pure function of the
  project directory, the Sass switch and the bundle jobs in enumeration order.
  The graph is the leading tasks, then the bundle tasks, then the trailing
  tasks. Its lemmas state:
  - which tasks exist and what each depends on;
  - that every dependency is registered;
  - that the dependency relation is acyclic.
- `GulpTool`: `GulpTool.js`:
  - `JSBundle` and `GulpTool` are classes whose methods update their fields in
    place and return `this`;
  - `build()` is a method with the source's loop over the bundles, proved to
    leave the registry equal to the old registry overridden by
    `TaskGraph.Graph`;
  - the regular expression `/.ts$/` is modelled and proved equivalent to a
    test on the last three characters.
- `GulpTools`: `src/js/GulpTools.js`, which has the same structure. Its entry
  path is proved to be the `GulpTool` one with the TypeScript flag off.

`JSBundle.Options` and `JSBundle.Job` compute the browserify options and the
job snapshot, including whether the tsify plugin is added.
`GulpTool.JSBundle.Job` always adds it (GulpTool.js:145).
`GulpTools.JSBundle.Job` never does.
`JobDeterminesBundle` shows that the snapshot keeps every field a bundle task
uses.

Where the code and its documentation disagree, the model follows the code:

- The doc comment of `createJsBundle` in `GulpTool.js` says the default source
  ends in `.js`, but the constructor uses `name + '.ts'`.
- `targetDirectory` already ends in a slash, so `clean` deletes
  `<dir>/assets//css` and `<dir>/assets//js`, and the Sass and bundle outputs
  go to `<dir>/assets//css/` and `<dir>/assets//js/`.

## Model

| member | source | states |
|---|---|---|
| Gulp.TaskRegistry.Register | GulpTool.js:298-349 | `gulp.task(name, deps, fn)`: the task is recorded under its name with its dependencies and callback descriptor, replacing an earlier task of that name; every other task is kept |
| Bundles.ExposeEntry | GulpTool.js:74-77 | the exposed record keeps the module name; its alias is the given alias, or the module name when the alias is absent or empty |
| Bundles.LookupPaths | GulpTool.js:132-134 | the lookup paths have the same length and order as the bundle's paths, each prefixed with the base directory and `/` |
| Bundles.LookupPathsInjective | GulpTool.js:132-134 | different path lists never resolve to the same lookup paths |
| JsObject.Empty | GulpTool.js:211 | the new dictionary has no keys and no properties, and is well formed |
| JsObject.InsertIndexOrdered | GulpTool.js:260 | placing a new array-index key by value keeps the own keys in enumeration order (distinct, array indices first and ascending) |
| JsObject.AddKey | GulpTool.js:260 | the key list after `o[k] = v`: an existing key keeps its place; a new non-index key goes last; the key set grows by exactly `k`; enumeration order is preserved; the non-index keys gain `k` at the end exactly when it is new |
| JsObject.Put | GulpTool.js:260 | `jsBundles[name] = bundle`: the property becomes the bundle; `__proto__` leaves the dictionary unchanged; key order as for AddKey; well-formedness is preserved |
| JsObject.PutTwice | GulpTool.js:260 | storing two bundles under one name: the later one wins, and the position is the one the first store gave |
| TaskGraph.AddTaskSuffix | GulpTool.js:334-338 | `addTaskSuffix`: same length and order, each name followed by `-` and the suffix |
| TaskGraph.JsTaskNames | GulpTool.js:324-332 | `jsTasks` holds one `js-<name>` per bundle, in enumeration order |
| TaskGraph.BundleTaskNameInjective | GulpTool.js:325-329 | two bundle task names are equal only for the same bundle name and the same suffix |
| TaskGraph.BundleTasksKey | GulpTool.js:324-332 | every task the bundle loop registers has a `js-…` name that no fixed task has, and no dependencies |
| TaskGraph.BundleTasksOwner | GulpTool.js:324-332 | conversely, every name the bundle loop registers is the watch or the build task of some bundle |
| TaskGraph.BundleTaskLookup | GulpTool.js:324-332 | with distinct bundle names, each bundle's watch task runs that bundle's job in debug mode and its build task runs it minified, both into the js target directory |
| TaskGraph.DependsShape | GulpTool.js:340-349 | `watchDepends`/`buildDepends` start with `clean`, hold the CSS task if and only if Sass is on, and hold the JS task if and only if there is a bundle, in that order |
| TaskGraph.LeadingAt | GulpTool.js:298-317 | `clean` is always registered; the three CSS tasks exist if and only if Sass is on, with their sources, destinations and debug flags, and `css-watch` depends on `css-debug` |
| TaskGraph.TrailingAggregate | GulpTool.js:340-346 | `js-watch`/`js-build` are registered if and only if there is a bundle, and depend on the suffixed stems |
| TaskGraph.TrailingComposite | GulpTool.js:348-349 | `watch`/`build` are always registered, with the accumulated dependency lists |
| TaskGraph.GraphAt | GulpTool.js:293-352 | a task is in the graph exactly when one of the three registration phases registers it; the phases never share a name, so no later registration overrides an earlier one |
| TaskGraph.GraphClean | GulpTool.js:298-304 | `clean` has no dependencies and deletes exactly `<dir>/assets//css` and `<dir>/assets//js` |
| TaskGraph.GraphCss | GulpTool.js:306-317 | `css-debug`, `css-build` and `css-watch` exist if and only if Sass is on; `css-debug` and `css-build` compile the Sass sources into the css directory, with and without source maps; `css-watch` depends on `css-debug` and re-runs it |
| TaskGraph.GraphBundles | GulpTool.js:324-332 | every bundle has a `js-<name>-watch` task that bundles it in debug mode and a `js-<name>-build` task that bundles it minified |
| TaskGraph.GraphJsAggregates | GulpTool.js:334-346 | `js-watch` and `js-build` exist if and only if there is a bundle; their dependencies are every bundle's `-watch` / `-build` task, in bundle order |
| TaskGraph.GraphComposites | GulpTool.js:295-349 | `watch` and `build` list `clean` first, then their CSS task if and only if Sass is on, then their JS task if and only if there is a bundle, and nothing else |
| TaskGraph.GraphNames | GulpTool.js:293-352 | `build()` registers exactly `clean`, `watch`, `build`, the three CSS tasks when Sass is on, `js-watch` and `js-build` when some bundle exists, and the watch and build task of every bundle; no other name |
| TaskGraph.GraphBundleTaskName | GulpTool.js:324-332 | `js-<name>-watch` (or `-build`) is registered if and only if a bundle named `<name>` is |
| TaskGraph.GraphClosed | GulpTool.js:293-352 | every dependency of every registered task is itself registered |
| TaskGraph.GraphAcyclic | GulpTool.js:293-352 | every dependency ranks strictly below its task, so the dependency graph has no cycle |
| TaskGraph.LeadingRegistered | GulpTool.js:298-317 | registering `clean` and the CSS tasks one by one, in source order, adds the leading part of the graph to the registry |
| TaskGraph.BundleTasksAppend | GulpTool.js:324-332 | one more loop iteration adds exactly the next bundle's watch and build tasks and its stem |
| TaskGraph.TrailingRegistered | GulpTool.js:340-349 | registering the aggregates (when there is a bundle) and then the composites adds the trailing part of the graph |
| TaskGraph.GraphRegistered | GulpTool.js:293-352 | the three phases registered in turn give the registry overridden by the whole graph |
| GulpTool.IsTypeScriptSourceMatches | GulpTool.js:51 | `!!src.match(/.ts$/)`: the test on the last three characters holds if and only if the regular expression matches at the end of the source |
| GulpTool.DefaultSourceIsTypeScript | GulpTool.js:46-51 | a bundle created without a source is always TypeScript |
| GulpTool.UnescapedDot | GulpTool.js:51 | any ordinary character before `ts` makes a source TypeScript (`charts` is); a `.js` source never is |
| GulpTool.EntryPath | GulpTool.js:129-131 | the entry path is the base directory, `/src/`, `ts` or `js` by the TypeScript flag, `/`, and then the source; its length fixes where each part sits, so the base directory, the directory letter and the source can be read back character by character |
| GulpTool.JSBundle.constructor | GulpTool.js:41-51 | name kept; source defaults to `<name>.ts`; target `<name>.js`; three empty lists; TypeScript flag from the source |
| GulpTool.JSBundle.External | GulpTool.js:59-63 | appends the dependency to `externals`; everything else unchanged; returns the same bundle |
| GulpTool.JSBundle.Expose | GulpTool.js:72-81 | appends the exposed record to `exposed`; everything else unchanged; returns the same bundle |
| GulpTool.JSBundle.Path | GulpTool.js:89-93 | appends the path to `paths`; everything else unchanged; returns the same bundle |
| GulpTool.JSBundle.SetTargetName | GulpTool.js:101-105 | overwrites the target only; returns the same bundle |
| GulpTool.JSBundle.SetSrc | GulpTool.js:113-117 | overwrites the source only; the TypeScript flag (a constant) keeps the constructor's value; returns the same bundle |
| GulpTool.JSBundle.Options | GulpTool.js:129-136 | the browserify options: entry `<base>/src/<ts or js>/<src>`, and lookup paths of the same length and order as `paths`, each `<base>/<path>` |
| GulpTool.JSBundle.Job | GulpTool.js:127-171 | what a bundle task captures: the bundle's name, target, exposed and external modules as they are when `build()` runs, its browserify options, and the tsify plugin always added |
| GulpTool.JobDeterminesBundle | GulpTool.js:127-171 | for bundles with the same TypeScript flag, equal jobs if and only if equal name, source, target, exposed and external modules and lookup paths |
| GulpTool.JobsOf | GulpTool.js:324-332 | one job per key, in key order, each the job of the bundle stored under that key |
| GulpTool.GulpTool.constructor | GulpTool.js:207-216 | Sass off, empty options, no bundles, target directory `<dir>/assets/` |
| GulpTool.GulpTool.Sass | GulpTool.js:224-233 | switches Sass on; replaces the options only when options are given; bundles unchanged; returns the same tool |
| GulpTool.GulpTool.CreateJsBundle | GulpTool.js:242-245 | a fresh bundle with the constructor defaults |
| GulpTool.GulpTool.Js | GulpTool.js:254-262 | stores the bundle under its name with JavaScript key semantics; Sass settings unchanged; the dictionary stays well formed; returns the same tool |
| GulpTool.GulpTool.JsNamed | GulpTool.js:254-262 | `js(name, src)`: a fresh default bundle stored under the name, its TypeScript flag decided by its source; the key list per AddKey; other bundles unchanged; `__proto__` changes nothing |
| GulpTool.GulpTool.Jobs | GulpTool.js:324 | the bundles in the order `lodash.forEach` visits them, one job each |
| GulpTool.GulpTool.JobsNamed | GulpTool.js:254-262 | every job is named by its dictionary key, so no two jobs share a name |
| GulpTool.GulpTool.RegisterCleanAndSass | GulpTool.js:295-317 | the registry gains the leading part of the graph; the dependency lists are `clean` plus the CSS task when Sass is on |
| GulpTool.GulpTool.RegisterBundles | GulpTool.js:319-332 | the loop adds every bundle's two tasks in enumeration order, and `jsTasks` holds their stems |
| GulpTool.GulpTool.RegisterJob | GulpTool.js:324-328 | one iteration registers `js-<name>-watch` and then `js-<name>-build`, each running the captured job with its debug flag, and returns the stem `js-<name>`; no other task changes |
| GulpTool.GulpTool.Build | GulpTool.js:293-352 | `build()` returns the registry, which becomes the old registry overridden by the task graph of this configuration |
| GulpTools.EntryPath | src/js/GulpTools.js:111-112 | the entry path is always under `src/js`: the TypeScript-aware entry path with the flag off |
| GulpTools.JSBundle.constructor | src/js/GulpTools.js:23-32 | name kept; source defaults to `<name>.js`; target `<name>.js`; three empty lists |
| GulpTools.JSBundle.External | src/js/GulpTools.js:40-44 | appends to `externals` only; returns the same bundle |
| GulpTools.JSBundle.Expose | src/js/GulpTools.js:53-62 | appends the exposed record (alias defaulting to the name) only; returns the same bundle |
| GulpTools.JSBundle.Path | src/js/GulpTools.js:70-74 | appends to `paths` only; returns the same bundle |
| GulpTools.JSBundle.SetTargetName | src/js/GulpTools.js:82-86 | overwrites the target only; returns the same bundle |
| GulpTools.JSBundle.SetSrc | src/js/GulpTools.js:94-98 | overwrites the source only; returns the same bundle |
| GulpTools.JSBundle.Options | src/js/GulpTools.js:111-117 | the browserify options: entry `<base>/src/js/<src>`, and lookup paths of the same length and order as `paths`, each `<base>/<path>` |
| GulpTools.JSBundle.Job | src/js/GulpTools.js:108-155 | what a bundle task captures: name, target, exposed and external modules, browserify options, and no tsify plugin |
| GulpTools.JobDeterminesBundle | src/js/GulpTools.js:108-155 | equal jobs if and only if equal name, source, target, exposed and external modules and lookup paths |
| GulpTools.JobsOf | src/js/GulpTools.js:303-311 | one job per key, in key order |
| GulpTools.GulpTools.constructor | src/js/GulpTools.js:186-195 | Sass off, empty options, no bundles, target directory `<dir>/assets/` |
| GulpTools.GulpTools.Sass | src/js/GulpTools.js:203-212 | switches Sass on; replaces the options only when given |
| GulpTools.GulpTools.CreateJsBundle | src/js/GulpTools.js:221-224 | a fresh bundle with the defaults |
| GulpTools.GulpTools.Js | src/js/GulpTools.js:233-241 | stores the bundle under its name; a later bundle of that name replaces the earlier one in place |
| GulpTools.GulpTools.JsNamed | src/js/GulpTools.js:233-241 | `js(name, src)`: a fresh default bundle stored under the name |
| GulpTools.GulpTools.Jobs | src/js/GulpTools.js:303 | the bundles in enumeration order, one job each |
| GulpTools.GulpTools.JobsNamed | src/js/GulpTools.js:233-241 | every job is named by its key; no two jobs share a name |
| GulpTools.GulpTools.RegisterCleanAndSass | src/js/GulpTools.js:274-296 | the registry gains `clean` and, with Sass, the CSS tasks |
| GulpTools.GulpTools.RegisterBundles | src/js/GulpTools.js:298-311 | the loop adds every bundle's two tasks in enumeration order |
| GulpTools.GulpTools.RegisterJob | src/js/GulpTools.js:304-308 | one iteration registers `js-<name>-watch` and then `js-<name>-build`, each running the captured job with its debug flag, and returns the stem `js-<name>`; no other task changes |
| GulpTools.GulpTools.Build | src/js/GulpTools.js:272-331 | the registry becomes the old one overridden by the task graph; the graph lemmas above apply unchanged |

## Left out

- Task bodies are recorded as descriptors, not run. These include:
  - browserify, watchify, the tsify plugin call, uglify and source maps;
  - gulp-sass, `del`, `gulp.src`, `gulp.dest` and `gulp.watch`;
  - the `log` and `error` handlers.

  They are file I/O and calls into foreign libraries. A `RunBundle` descriptor
  records the browserify options, the tsify flag, the exposed and external
  modules, the output file, the output directory and the debug flag.
- Rebuilding when watchify emits `update` (GulpTool.js:192-195) is left out.
  It is event plumbing that re-runs the same job.
- `sassOptions` are read by the Sass task when it runs, not when `build()`
  registers it, so `CompileSass` does not carry them. For the same reason the
  model treats `targetDirectory`, which `clean` and the Sass tasks also read
  when they run, as a constant.
- Reassigning public properties from outside is not modelled. This covers
  `targetDirectory`, `buildSass`, and a bundle's `name` or `isTypeScript`;
  the source never does it, so `name`, `isTypeScript` and `targetDirectory`
  are constants here.
- The `gulpInstance || require('gulp')` fallback is left out: the registry is
  always passed in.
- Arguments that are not strings are left out. These include a non-string
  source (which `match` would reject) and a `js()` argument that is neither a
  name nor a bundle. `js` with a name is `JsNamed`; with a bundle it is `Js`.
- Logging through `gutil.log` is left out.
- The body of `build()` is split into two helper
  methods and the trailing registrations. Each bundle's job is computed once
  per iteration, where the source creates it separately for the watch task
  and the build task; both read the same unchanged bundle.
- The other files of the repository are not part of this model. These are
  `OAuthService.ts`, `AuthenticationFactory.js`, `LoginController.ts`,
  `RestRepositories.ts`, the interface-only files and the Angular module
  wiring. They hold HTTP calls, clock- and promise-driven state, stubs and
  declarations, not builder logic.

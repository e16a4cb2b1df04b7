/**
 * The TypeScript-aware copy of the build tool: `JSBundle`, a fluent bundle
 * definition, and `GulpTool`, which collects bundles and a Sass switch and
 * turns them into tasks on a task registry.
 */
module GulpTool {
  import opened Wrappers
  import opened Bundles
  import opened Gulp
  import TaskGraph
  import JsObject

  /** The characters the regular-expression atom `.` does not match. */
  predicate IsLineTerminator(c: char) {
    c == '\n' || c == '\r' || c == '\U{2028}' || c == '\U{2029}'
  }

  /** A single-character atom of a regular expression. */
  datatype Atom = AnyChar | Literal(c: char)

  predicate AtomMatches(a: Atom, c: char) {
    match a
    case AnyChar => !IsLineTerminator(c)
    case Literal(l) => c == l
  }

  /** The atoms match the characters of `s` from position `i` on, one character each. */
  predicate MatchesAt(atoms: seq<Atom>, s: string, i: nat) {
    i + |atoms| <= |s| && forall j :: 0 <= j < |atoms| ==> AtomMatches(atoms[j], s[i + j])
  }

  /**
   * `s.match(re)` for a pattern of atoms followed by `$`, without the `m`
   * flag: some match of the atoms ends exactly at the end of the input.
   */
  ghost predicate MatchesAtEnd(atoms: seq<Atom>, s: string) {
    exists i: nat :: MatchesAt(atoms, s, i) && i + |atoms| == |s|
  }

  /** The atoms of `/.ts$/`: any character, then `t`, then `s`. */
  const TsPattern: seq<Atom> := [AnyChar, Literal('t'), Literal('s')]

  /** `!!src.match(/.ts$/)`, decided on the last three characters. */
  predicate IsTypeScriptSource(src: string) {
    |src| >= 3 && src[|src| - 2] == 't' && src[|src| - 1] == 's' && !IsLineTerminator(src[|src| - 3])
  }

  /** The three-character test agrees with the regular-expression search, both ways. */
  lemma IsTypeScriptSourceMatches(src: string)
    ensures IsTypeScriptSource(src) <==> MatchesAtEnd(TsPattern, src)
  {
    if IsTypeScriptSource(src) {
      var i: nat := |src| - 3;
      assert AtomMatches(TsPattern[0], src[i + 0]);
      assert AtomMatches(TsPattern[1], src[i + 1]);
      assert AtomMatches(TsPattern[2], src[i + 2]);
      assert MatchesAt(TsPattern, src, i);
    }
    if MatchesAtEnd(TsPattern, src) {
      var i: nat :| MatchesAt(TsPattern, src, i) && i + |TsPattern| == |src|;
      assert AtomMatches(TsPattern[0], src[i + 0]);
      assert AtomMatches(TsPattern[1], src[i + 1]);
      assert AtomMatches(TsPattern[2], src[i + 2]);
    }
  }

  /** The default source `name + ".ts"` is always recognised as TypeScript. */
  lemma DefaultSourceIsTypeScript(name: string)
    ensures IsTypeScriptSource(name + ".ts")
  {
    var s := name + ".ts";
    assert s[|s| - 3] == '.' && s[|s| - 2] == 't' && s[|s| - 1] == 's';
  }

  /**
   * The dot in `/.ts$/` is not escaped: a source that merely ends in `ts`
   * after any ordinary character, such as `charts`, counts as TypeScript,
   * while a name ending in `.js` never does.
   */
  lemma UnescapedDot(stem: string, c: char)
    requires !IsLineTerminator(c)
    ensures IsTypeScriptSource(stem + [c] + "ts")
    ensures !IsTypeScriptSource(stem + ".js")
  {
    var s := stem + [c] + "ts";
    assert s[|s| - 3] == c && s[|s| - 2] == 't' && s[|s| - 1] == 's';
    var j := stem + ".js";
    assert j[|j| - 2] == 'j';
  }

  /**
   * The browserify entry: the source file under `src/ts` or `src/js` of the
   * base directory. The base directory, the source directory and the file
   * name can be read back from it.
   */
  function EntryPath(baseDirectory: string, isTypeScript: bool, src: string): (e: string)
    ensures |e| == |baseDirectory| + 8 + |src|
    ensures forall k :: 0 <= k < |baseDirectory| ==> e[k] == baseDirectory[k]
    ensures e[|baseDirectory| + 5] == (if isTypeScript then 't' else 'j') && e[|baseDirectory| + 6] == 's'
    ensures forall k :: 0 <= k < |src| ==> e[|baseDirectory| + 8 + k] == src[k]
  {
    baseDirectory + "/src/" + (if isTypeScript then "ts" else "js") + "/" + src
  }

  /** A bundle definition; the fluent setters change it in place and return it. */
  class JSBundle {
    const name: string
    var src: string
    var target: string
    var exposed: seq<Exposure>
    var externals: seq<string>
    var paths: seq<string>
    /** Decided once from the source given to the constructor. */
    const isTypeScript: bool

    constructor (name: string, src: Option<string>)
      ensures this.name == name
      ensures this.src == OrDefault(src, name + ".ts")
      ensures target == name + ".js"
      ensures exposed == [] && externals == [] && paths == []
      ensures isTypeScript == IsTypeScriptSource(this.src)
    {
      var s := OrDefault(src, name + ".ts");
      this.name := name;
      this.src := s;
      target := name + ".js";
      exposed := [];
      externals := [];
      paths := [];
      isTypeScript := IsTypeScriptSource(s);
    }

    /** `external(name)`: marks a module as provided by another bundle. */
    method External(dependency: string) returns (self: JSBundle)
      modifies this
      ensures self == this
      ensures externals == old(externals) + [dependency]
      ensures src == old(src) && target == old(target)
      ensures exposed == old(exposed) && paths == old(paths)
    {
      externals := externals + [dependency];
      self := this;
    }

    /** `expose(name, as)`: makes a module available to other bundles, by default under its own name. */
    method Expose(dependency: string, alias: Option<string>) returns (self: JSBundle)
      modifies this
      ensures self == this
      ensures exposed == old(exposed) + [ExposeEntry(dependency, alias)]
      ensures src == old(src) && target == old(target)
      ensures externals == old(externals) && paths == old(paths)
    {
      exposed := exposed + [ExposeEntry(dependency, alias)];
      self := this;
    }

    /** `path(path)`: adds a module lookup path, relative to the base directory. */
    method Path(path: string) returns (self: JSBundle)
      modifies this
      ensures self == this
      ensures paths == old(paths) + [path]
      ensures src == old(src) && target == old(target)
      ensures exposed == old(exposed) && externals == old(externals)
    {
      paths := paths + [path];
      self := this;
    }

    /** `setTargetName(name)`: the output file name. */
    method SetTargetName(target: string) returns (self: JSBundle)
      modifies this
      ensures self == this
      ensures this.target == target
      ensures src == old(src)
      ensures exposed == old(exposed) && externals == old(externals) && paths == old(paths)
    {
      this.target := target;
      self := this;
    }

    /** `setSrc(src)`: the source file name; the TypeScript flag keeps the value the constructor gave it. */
    method SetSrc(src: string) returns (self: JSBundle)
      modifies this
      ensures self == this
      ensures this.src == src
      ensures target == old(target)
      ensures exposed == old(exposed) && externals == old(externals) && paths == old(paths)
    {
      this.src := src;
      self := this;
    }

    /** The options `createBrowserifyBundle` hands to browserify. */
    function Options(baseDirectory: string): (o: BrowserifyOptions)
      reads this
      ensures o.entries == baseDirectory + "/src/" + (if isTypeScript then "ts" else "js") + "/" + src
      ensures |o.paths| == |paths|
      ensures forall i :: 0 <= i < |paths| ==> o.paths[i] == baseDirectory + "/" + paths[i]
    {
      BrowserifyOptions(EntryPath(baseDirectory, isTypeScript, src), LookupPaths(baseDirectory, paths))
    }

    /** What `createTaskCallback` captures when `build()` creates this bundle's tasks; tsify is always added. */
    function Job(baseDirectory: string): (j: BundleJob)
      reads this
      ensures j.name == name && j.target == target
      ensures j.exposed == exposed && j.externals == externals
      ensures j.tsify
      ensures j.options == Options(baseDirectory)
    {
      BundleJob(name, Options(baseDirectory), true, exposed, externals, target)
    }
  }

  /**
   * The job loses nothing a bundle task needs: two bundles with the same
   * TypeScript flag give the same job exactly when they agree on name,
   * source, target, exposed and external modules and lookup paths.
   */
  lemma JobDeterminesBundle(a: JSBundle, b: JSBundle, baseDirectory: string)
    requires a.isTypeScript == b.isTypeScript
    ensures a.Job(baseDirectory) == b.Job(baseDirectory) <==>
      && a.name == b.name && a.src == b.src && a.target == b.target
      && a.exposed == b.exposed && a.externals == b.externals && a.paths == b.paths
  {
    if a.Job(baseDirectory) == b.Job(baseDirectory) {
      var ea := EntryPath(baseDirectory, a.isTypeScript, a.src);
      var eb := EntryPath(baseDirectory, b.isTypeScript, b.src);
      assert ea == a.Options(baseDirectory).entries == b.Options(baseDirectory).entries == eb;
      assert |a.src| == |b.src|;
      forall k | 0 <= k < |a.src| ensures a.src[k] == b.src[k] {
        assert a.src[k] == ea[|baseDirectory| + 8 + k] == eb[|baseDirectory| + 8 + k] == b.src[k];
      }
      LookupPathsInjective(baseDirectory, a.paths, b.paths);
    }
  }

  /** The jobs of the bundles stored under `keys`, in that order. */
  function JobsOf(keys: seq<string>, bundles: map<string, JSBundle>, baseDirectory: string): (r: seq<BundleJob>)
    requires forall k :: k in keys ==> k in bundles
    reads bundles.Values
    ensures |r| == |keys|
    ensures forall i :: 0 <= i < |keys| ==> r[i] == bundles[keys[i]].Job(baseDirectory)
  {
    if keys == [] then []
    else JobsOf(keys[..|keys| - 1], bundles, baseDirectory) + [bundles[keys[|keys| - 1]].Job(baseDirectory)]
  }

  /** Stands in for the libsass options object, which no task descriptor reads. */
  type SassOptions = map<string, string>

  /** The build tool for one project directory. */
  class GulpTool {
    const directory: string
    const gulp: TaskRegistry
    const targetDirectory: string
    var buildSass: bool
    var sassOptions: SassOptions
    /** The dictionary `jsBundles`, keyed by bundle name. */
    var jsBundles: JsObject.Object<JSBundle>

    /** Every enumerated key holds a bundle. */
    ghost predicate KeysStored()
      reads this
    {
      forall k :: k in jsBundles.keys ==> k in jsBundles.props
    }

    /** Every bundle is stored under its own name, in JavaScript key order. */
    ghost predicate Valid()
      reads this
    {
      && targetDirectory == TaskGraph.TargetDirectory(directory)
      && KeysStored()
      && JsObject.Valid(jsBundles)
      && forall k :: k in jsBundles.props ==> jsBundles.props[k].name == k
    }

    constructor (directory: string, gulp: TaskRegistry)
      ensures this.directory == directory && this.gulp == gulp
      ensures targetDirectory == directory + "/assets/"
      ensures !buildSass && sassOptions == map[]
      ensures jsBundles.keys == [] && jsBundles.props == map[]
      ensures Valid()
    {
      this.directory := directory;
      this.gulp := gulp;
      targetDirectory := directory + "/assets/";
      buildSass := false;
      sassOptions := map[];
      jsBundles := JsObject.Empty();
    }

    /** `sass(options)`: switches the Sass tasks on; only given options replace the current ones. */
    method Sass(options: Option<SassOptions>) returns (self: GulpTool)
      modifies this
      ensures self == this
      ensures buildSass
      ensures options.Some? ==> sassOptions == options.value
      ensures options.None? ==> sassOptions == old(sassOptions)
      ensures jsBundles == old(jsBundles)
      ensures Valid() <==> old(Valid())
    {
      buildSass := true;
      if options.Some? {
        sassOptions := options.value;
      }
      self := this;
    }

    /** `createJsBundle(name, src)`: a new bundle with the constructor's defaults. */
    method CreateJsBundle(name: string, src: Option<string>) returns (b: JSBundle)
      ensures fresh(b)
      ensures b.name == name && b.src == OrDefault(src, name + ".ts") && b.target == name + ".js"
      ensures b.exposed == [] && b.externals == [] && b.paths == []
      ensures b.isTypeScript == IsTypeScriptSource(b.src)
    {
      b := new JSBundle(name, src);
    }

    /** `js(bundle)`: stores the bundle under its name, replacing one stored there before. */
    method Js(bundle: JSBundle) returns (self: GulpTool)
      requires Valid()
      modifies this
      ensures self == this
      ensures Valid()
      ensures jsBundles == JsObject.Put(old(jsBundles), bundle.name, bundle)
      ensures buildSass == old(buildSass) && sassOptions == old(sassOptions)
    {
      jsBundles := JsObject.Put(jsBundles, bundle.name, bundle);
      self := this;
    }

    /** `js(name, src)`: creates a bundle with the constructor's defaults and stores it. */
    method JsNamed(name: string, src: Option<string>) returns (self: GulpTool)
      requires Valid()
      modifies this
      ensures self == this
      ensures Valid()
      ensures name != JsObject.ProtoKey ==> jsBundles.keys == JsObject.AddKey(old(jsBundles.keys), name)
      ensures name != JsObject.ProtoKey ==>
        && name in jsBundles.props
        && fresh(jsBundles.props[name])
        && jsBundles.props[name].src == OrDefault(src, name + ".ts")
        && jsBundles.props[name].target == name + ".js"
        && jsBundles.props[name].exposed == [] && jsBundles.props[name].externals == []
        && jsBundles.props[name].paths == []
        && jsBundles.props[name].isTypeScript == IsTypeScriptSource(jsBundles.props[name].src)
        && (forall k :: k in old(jsBundles.props) && k != name ==> jsBundles.props[k] == old(jsBundles.props[k]))
      ensures name == JsObject.ProtoKey ==> jsBundles == old(jsBundles)
      ensures buildSass == old(buildSass) && sassOptions == old(sassOptions)
    {
      var bundle := CreateJsBundle(name, src);
      self := Js(bundle);
    }

    /** The bundles' jobs in the order `lodash.forEach` visits the dictionary. */
    function Jobs(): (r: seq<BundleJob>)
      requires KeysStored()
      reads this, jsBundles.props.Values
      ensures |r| == |jsBundles.keys|
      ensures forall i :: 0 <= i < |r| ==> r[i] == jsBundles.props[jsBundles.keys[i]].Job(directory)
    {
      JobsOf(jsBundles.keys, jsBundles.props, directory)
    }

    /** One job per stored bundle, named by its key, so no two jobs share a name. */
    lemma JobsNamed()
      requires Valid()
      ensures forall i :: 0 <= i < |Jobs()| ==> Jobs()[i].name == jsBundles.keys[i]
      ensures TaskGraph.DistinctNames(Jobs())
    {
    }

    /** The first part of `build()`: `clean`, then the Sass tasks when Sass is on. */
    method RegisterCleanAndSass() returns (watchDepends: seq<string>, buildDepends: seq<string>)
      requires targetDirectory == TaskGraph.TargetDirectory(directory)
      modifies gulp
      ensures gulp.tasks == old(gulp.tasks) + TaskGraph.Leading(directory, buildSass)
      ensures watchDepends == ["clean"] + (if buildSass then ["css-watch"] else [])
      ensures buildDepends == ["clean"] + (if buildSass then ["css-build"] else [])
    {
      ghost var before := gulp.tasks;
      watchDepends := ["clean"];
      buildDepends := ["clean"];
      gulp.Register("clean", [], Clean(TaskGraph.CleanPaths(targetDirectory)));
      if buildSass {
        var src := TaskGraph.SassSource(directory);
        gulp.Register("css-debug", [], CompileSass(src, targetDirectory + "/css/", true));
        gulp.Register("css-build", [], CompileSass(src, targetDirectory + "/css/", false));
        gulp.Register("css-watch", ["css-debug"], WatchSass(src, ["css-debug"]));
        watchDepends := watchDepends + ["css-watch"];
        buildDepends := buildDepends + ["css-build"];
      }
      TaskGraph.LeadingRegistered(before, directory, buildSass);
    }

    /** The bundle loop of `build()`: a watch and a build task per bundle, in enumeration order. */
    method RegisterBundles() returns (jsTasks: seq<string>)
      requires KeysStored() && targetDirectory == TaskGraph.TargetDirectory(directory)
      modifies gulp
      ensures gulp.tasks == old(gulp.tasks) + TaskGraph.BundleTasks(old(Jobs()), TaskGraph.TargetDirectory(directory) + "/js/")
      ensures jsTasks == TaskGraph.JsTaskNames(old(Jobs()))
    {
      ghost var before := gulp.tasks;
      ghost var jobs := Jobs();
      var keys := jsBundles.keys;
      var jsTargetDir := targetDirectory + "/js/";
      jsTasks := [];
      TaskGraph.UnionEmpty(before);
      var i := 0;
      while i < |keys|
        invariant 0 <= i <= |keys|
        invariant jsTasks == TaskGraph.JsTaskNames(jobs[..i])
        invariant gulp.tasks == before + TaskGraph.BundleTasks(jobs[..i], jsTargetDir)
      {
        // Both task callbacks capture the bundle as it is now.
        var job := jsBundles.props[keys[i]].Job(directory);
        assert job == jobs[i];
        TaskGraph.BundleTasksAppend(before, jobs, i, jsTargetDir);
        var taskName := RegisterJob(job, jsTargetDir);
        jsTasks := jsTasks + [taskName];
        i := i + 1;
      }
      assert jobs[..i] == jobs;
    }

    /** One pass of the bundle loop in `build()`: `js-<name>-watch` and `js-<name>-build`, each running the captured job. */
    method RegisterJob(job: BundleJob, jsTargetDir: string) returns (taskName: string)
      modifies gulp
      ensures taskName == TaskGraph.JsTaskName(job.name)
      ensures gulp.tasks == old(gulp.tasks)
        [taskName + "-watch" := Task([], RunBundle(job, jsTargetDir, true))]
        [taskName + "-build" := Task([], RunBundle(job, jsTargetDir, false))]
    {
      taskName := "js-" + job.name;
      gulp.Register(taskName + "-watch", [], RunBundle(job, jsTargetDir, true));
      gulp.Register(taskName + "-build", [], RunBundle(job, jsTargetDir, false));
    }

    /**
     * `build()`: registers `clean`, the Sass tasks, two tasks per bundle,
     * the `js-*` aggregates and the `watch`/`build` composites.
     */
    method Build() returns (g: TaskRegistry)
      requires Valid()
      modifies gulp
      ensures g == gulp
      ensures gulp.tasks == old(gulp.tasks) + TaskGraph.Graph(directory, buildSass, old(Jobs()))
    {
      ghost var before := gulp.tasks;
      ghost var jobs := Jobs();
      var watchDepends, buildDepends := RegisterCleanAndSass();
      assert Jobs() == jobs;
      var jsTasks := RegisterBundles();
      ghost var afterBundles := gulp.tasks;

      if |jsTasks| > 0 {
        gulp.Register("js-watch", TaskGraph.AddTaskSuffix(jsTasks, "watch"), NoAction);
        gulp.Register("js-build", TaskGraph.AddTaskSuffix(jsTasks, "build"), NoAction);
        watchDepends := watchDepends + ["js-watch"];
        buildDepends := buildDepends + ["js-build"];
      }
      assert watchDepends == TaskGraph.Depends(buildSass, |jobs| > 0, "css-watch", "js-watch");
      assert buildDepends == TaskGraph.Depends(buildSass, |jobs| > 0, "css-build", "js-build");
      gulp.Register("watch", watchDepends, NoAction);
      gulp.Register("build", buildDepends, NoAction);
      TaskGraph.TrailingRegistered(afterBundles, buildSass, jobs);
      TaskGraph.GraphRegistered(before, directory, buildSass, jobs);
      g := gulp;
    }
  }
}

/**
 * What `build()` registers, as a function of the builder's configuration:
 * the project directory, whether Sass is on, and the bundles (already
 * snapshotted into jobs) in dictionary enumeration order. Both copies of the
 * builder register the same graph; they differ only in the jobs they feed it.
 */
module TaskGraph {
  import opened Bundles
  import opened Gulp

  function TargetDirectory(directory: string): (d: string) {
    directory + "/assets/"
  }

  function SassSource(directory: string): (g: string) {
    directory + "/src/scss/**/*.scss"
  }

  /** The two output directories the `clean` task deletes. */
  function CleanPaths(targetDirectory: string): (r: seq<string>) {
    [targetDirectory + "/" + "css", targetDirectory + "/" + "js"]
  }

  /** The per-bundle task stem, `js-<name>`. */
  function JsTaskName(name: string): (t: string) {
    "js-" + name
  }

  /** `addTaskSuffix`: every task name followed by `-` and the suffix, in order. */
  function AddTaskSuffix(tasks: seq<string>, suffix: string): (r: seq<string>)
    ensures |r| == |tasks|
    ensures forall i :: 0 <= i < |tasks| ==> r[i] == tasks[i] + "-" + suffix
  {
    if tasks == [] then [] else [tasks[0] + "-" + suffix] + AddTaskSuffix(tasks[1..], suffix)
  }

  /** The name under which a bundle's watch or build task is registered. */
  function BundleTaskName(name: string, suffix: string): (t: string) {
    JsTaskName(name) + "-" + suffix
  }

  /** Names that only per-bundle tasks can have. */
  predicate IsBundleTaskName(k: string) {
    |k| >= 9 && k[0] == 'j' && k[1] == 's' && k[2] == '-'
  }

  lemma BundleTaskNameShape(name: string, suffix: string)
    requires suffix == "watch" || suffix == "build"
    ensures IsBundleTaskName(BundleTaskName(name, suffix))
  {
    var k := BundleTaskName(name, suffix);
    assert k[0] == 'j' && k[1] == 's' && k[2] == '-';
  }

  lemma BundleTaskNameInjective(a: string, s: string, b: string, t: string)
    requires s == "watch" || s == "build"
    requires t == "watch" || t == "build"
    requires BundleTaskName(a, s) == BundleTaskName(b, t)
    ensures a == b && s == t
  {
    var k := BundleTaskName(a, s);
    assert |a| == |b|;
    assert k[3..3 + |a|] == a;
    assert BundleTaskName(b, t)[3..3 + |b|] == b;
    assert k[|k| - 5..] == s;
    assert BundleTaskName(b, t)[|k| - 5..] == t;
  }

  /** The stems `jsTasks` collects, one per bundle, in enumeration order. */
  function JsTaskNames(jobs: seq<BundleJob>): (r: seq<string>)
    ensures |r| == |jobs|
    ensures forall i :: 0 <= i < |jobs| ==> r[i] == JsTaskName(jobs[i].name)
  {
    if jobs == [] then [] else JsTaskNames(jobs[..|jobs| - 1]) + [JsTaskName(jobs[|jobs| - 1].name)]
  }

  predicate DistinctNames(jobs: seq<BundleJob>) {
    forall i, j :: 0 <= i < j < |jobs| ==> jobs[i].name != jobs[j].name
  }

  /** The watch and build task of every bundle, registered in enumeration order. */
  function BundleTasks(jobs: seq<BundleJob>, jsDirectory: string): (m: map<string, Task>) {
    if jobs == [] then map[]
    else
      var job := jobs[|jobs| - 1];
      BundleTasks(jobs[..|jobs| - 1], jsDirectory)
        [BundleTaskName(job.name, "watch") := Task([], RunBundle(job, jsDirectory, true))]
        [BundleTaskName(job.name, "build") := Task([], RunBundle(job, jsDirectory, false))]
  }

  /** A name in the bundle tasks is a per-bundle name, and its task has no dependencies. */
  lemma {:induction false} BundleTasksKey(jobs: seq<BundleJob>, jsDirectory: string, k: string)
    requires k in BundleTasks(jobs, jsDirectory)
    ensures IsBundleTaskName(k) && BundleTasks(jobs, jsDirectory)[k].deps == []
  {
    var job := jobs[|jobs| - 1];
    if k == BundleTaskName(job.name, "watch") {
      BundleTaskNameShape(job.name, "watch");
    } else if k == BundleTaskName(job.name, "build") {
      BundleTaskNameShape(job.name, "build");
    } else {
      BundleTasksKey(jobs[..|jobs| - 1], jsDirectory, k);
    }
  }

  /** Conversely, every name in the bundle tasks is the watch or the build task of some bundle. */
  lemma {:induction false} BundleTasksOwner(jobs: seq<BundleJob>, jsDirectory: string, k: string)
    requires k in BundleTasks(jobs, jsDirectory)
    ensures exists i :: (0 <= i < |jobs| &&
      (k == BundleTaskName(jobs[i].name, "watch") || k == BundleTaskName(jobs[i].name, "build")))
  {
    var n := |jobs| - 1;
    if k != BundleTaskName(jobs[n].name, "watch") && k != BundleTaskName(jobs[n].name, "build") {
      var init := jobs[..n];
      BundleTasksOwner(init, jsDirectory, k);
      var i :| 0 <= i < |init| &&
        (k == BundleTaskName(init[i].name, "watch") || k == BundleTaskName(init[i].name, "build"));
      assert init[i] == jobs[i];
    }
  }

  /** Every bundle's watch and build names are in the bundle tasks. */
  lemma {:induction false} BundleTasksHas(jobs: seq<BundleJob>, jsDirectory: string, i: nat, suffix: string)
    requires i < |jobs| && (suffix == "watch" || suffix == "build")
    ensures BundleTaskName(jobs[i].name, suffix) in BundleTasks(jobs, jsDirectory)
  {
    if i < |jobs| - 1 {
      var init := jobs[..|jobs| - 1];
      assert init[i] == jobs[i];
      BundleTasksHas(init, jsDirectory, i, suffix);
    }
  }

  /** With distinct bundle names, a bundle's watch (or build) task carries that bundle's own job. */
  lemma {:induction false} BundleTaskLookup(jobs: seq<BundleJob>, jsDirectory: string, i: nat, suffix: string)
    requires DistinctNames(jobs) && i < |jobs|
    requires suffix == "watch" || suffix == "build"
    ensures BundleTaskName(jobs[i].name, suffix) in BundleTasks(jobs, jsDirectory)
    ensures BundleTasks(jobs, jsDirectory)[BundleTaskName(jobs[i].name, suffix)]
            == Task([], RunBundle(jobs[i], jsDirectory, suffix == "watch"))
  {
    BundleTasksHas(jobs, jsDirectory, i, suffix);
    var n := |jobs| - 1;
    var last := jobs[n];
    if i == n {
      if suffix == "watch" && BundleTaskName(last.name, "watch") == BundleTaskName(last.name, "build") {
        BundleTaskNameInjective(last.name, "watch", last.name, "build");
      }
    } else {
      var init := jobs[..n];
      assert init[i] == jobs[i];
      BundleTaskLookup(init, jsDirectory, i, suffix);
      if BundleTaskName(jobs[i].name, suffix) == BundleTaskName(last.name, "watch") {
        BundleTaskNameInjective(jobs[i].name, suffix, last.name, "watch");
      }
      if BundleTaskName(jobs[i].name, suffix) == BundleTaskName(last.name, "build") {
        BundleTaskNameInjective(jobs[i].name, suffix, last.name, "build");
      }
    }
  }

  /** `js-watch` and `js-build`, present only when some bundle was registered. */
  function JsAggregates(jobs: seq<BundleJob>): (m: map<string, Task>) {
    if |jobs| == 0 then map[]
    else
      map[]
        ["js-watch" := Task(AddTaskSuffix(JsTaskNames(jobs), "watch"), NoAction)]
        ["js-build" := Task(AddTaskSuffix(JsTaskNames(jobs), "build"), NoAction)]
  }

  /** `watchDepends` / `buildDepends`: clean, then the CSS task, then the JS task. */
  function Depends(buildSass: bool, hasJs: bool, cssTask: string, jsTask: string): (d: seq<string>) {
    ["clean"] + (if buildSass then [cssTask] else []) + (if hasJs then [jsTask] else [])
  }

  lemma DependsShape(buildSass: bool, hasJs: bool, cssTask: string, jsTask: string)
    requires cssTask != "clean" && jsTask != "clean" && cssTask != jsTask
    ensures var d := Depends(buildSass, hasJs, cssTask, jsTask);
      && d[0] == "clean"
      && ((cssTask in d) <==> buildSass)
      && ((jsTask in d) <==> hasJs)
      && |d| == 1 + (if buildSass then 1 else 0) + (if hasJs then 1 else 0)
      && (buildSass && hasJs ==> d[1] == cssTask && d[2] == jsTask)
      && (forall x :: x in d ==> x == "clean" || (buildSass && x == cssTask) || (hasJs && x == jsTask))
  {
  }

  /** What `build()` registers before the bundle loop: `clean` and, with Sass, the CSS tasks. */
  function Leading(directory: string, buildSass: bool): (m: map<string, Task>) {
    var targetDirectory := TargetDirectory(directory);
    var src := SassSource(directory);
    var clean := map["clean" := Task([], Clean(CleanPaths(targetDirectory)))];
    if buildSass then
      clean
        ["css-debug" := Task([], CompileSass(src, targetDirectory + "/css/", true))]
        ["css-build" := Task([], CompileSass(src, targetDirectory + "/css/", false))]
        ["css-watch" := Task(["css-debug"], WatchSass(src, ["css-debug"]))]
    else
      clean
  }

  /** What `build()` registers after the bundle loop: the aggregates and the composites. */
  function Trailing(buildSass: bool, jobs: seq<BundleJob>): (m: map<string, Task>) {
    JsAggregates(jobs)
      ["watch" := Task(Depends(buildSass, |jobs| > 0, "css-watch", "js-watch"), NoAction)]
      ["build" := Task(Depends(buildSass, |jobs| > 0, "css-build", "js-build"), NoAction)]
  }

  /** Every task `build()` registers, the later registration winning on a name clash. */
  function Graph(directory: string, buildSass: bool, jobs: seq<BundleJob>): (g: map<string, Task>) {
    Leading(directory, buildSass) + BundleTasks(jobs, TargetDirectory(directory) + "/js/") + Trailing(buildSass, jobs)
  }

  predicate IsLeadingName(k: string) {
    k == "clean" || k == "css-debug" || k == "css-build" || k == "css-watch"
  }

  predicate IsTrailingName(k: string) {
    k == "js-watch" || k == "js-build" || k == "watch" || k == "build"
  }

  lemma NamesDisjoint(k: string)
    ensures IsLeadingName(k) ==> !IsBundleTaskName(k) && !IsTrailingName(k)
    ensures IsTrailingName(k) ==> !IsBundleTaskName(k)
  {
  }

  lemma LeadingNames(directory: string, buildSass: bool, k: string)
    requires k in Leading(directory, buildSass)
    ensures IsLeadingName(k)
  {
  }

  lemma LeadingAt(directory: string, buildSass: bool)
    ensures var lead := Leading(directory, buildSass);
      var targetDirectory := TargetDirectory(directory);
      var src := SassSource(directory);
      && "clean" in lead
      && lead["clean"] == Task([], Clean(CleanPaths(targetDirectory)))
      && (("css-debug" in lead) <==> buildSass)
      && (("css-build" in lead) <==> buildSass)
      && (("css-watch" in lead) <==> buildSass)
      && (buildSass ==>
            && lead["css-debug"] == Task([], CompileSass(src, targetDirectory + "/css/", true))
            && lead["css-build"] == Task([], CompileSass(src, targetDirectory + "/css/", false))
            && lead["css-watch"] == Task(["css-debug"], WatchSass(src, ["css-debug"])))
  {
  }

  lemma TrailingNames(buildSass: bool, jobs: seq<BundleJob>, k: string)
    requires k in Trailing(buildSass, jobs)
    ensures IsTrailingName(k)
  {
  }

  lemma TrailingComposite(buildSass: bool, jobs: seq<BundleJob>, kind: string, cssTask: string, jsTask: string)
    requires (kind, cssTask, jsTask) == ("watch", "css-watch", "js-watch")
          || (kind, cssTask, jsTask) == ("build", "css-build", "js-build")
    ensures kind in Trailing(buildSass, jobs)
    ensures Trailing(buildSass, jobs)[kind] == Task(Depends(buildSass, |jobs| > 0, cssTask, jsTask), NoAction)
  {
  }

  lemma TrailingAggregate(buildSass: bool, jobs: seq<BundleJob>, name: string, suffix: string)
    requires (name, suffix) == ("js-watch", "watch") || (name, suffix) == ("js-build", "build")
    ensures var trail := Trailing(buildSass, jobs);
      && ((name in trail) <==> |jobs| > 0)
      && (|jobs| > 0 ==> trail[name] == Task(AddTaskSuffix(JsTaskNames(jobs), suffix), NoAction))
  {
  }

  /** Where a name's task comes from: the three parts never share a name. */
  lemma GraphAt(directory: string, buildSass: bool, jobs: seq<BundleJob>, k: string)
    ensures var g := Graph(directory, buildSass, jobs);
      var lead, trail := Leading(directory, buildSass), Trailing(buildSass, jobs);
      var bundles := BundleTasks(jobs, TargetDirectory(directory) + "/js/");
      && (k in g <==> k in lead || k in bundles || k in trail)
      && (IsLeadingName(k) ==> k !in bundles && k !in trail)
      && (IsTrailingName(k) ==> k !in lead && k !in bundles)
      && (k in lead ==> g[k] == lead[k])
      && (k in bundles ==> g[k] == bundles[k])
      && (k in trail ==> g[k] == trail[k])
  {
    if k in Leading(directory, buildSass) {
      LeadingNames(directory, buildSass, k);
    }
    if k in BundleTasks(jobs, TargetDirectory(directory) + "/js/") {
      BundleTasksKey(jobs, TargetDirectory(directory) + "/js/", k);
    }
    if k in Trailing(buildSass, jobs) {
      TrailingNames(buildSass, jobs, k);
    }
    NamesDisjoint(k);
  }

  /**
   * `clean` removes exactly the css and js output directories; the target
   * directory already ends in a slash, so each path carries a double slash.
   */
  lemma GraphClean(directory: string, buildSass: bool, jobs: seq<BundleJob>)
    ensures "clean" in Graph(directory, buildSass, jobs)
    ensures Graph(directory, buildSass, jobs)["clean"]
            == Task([], Clean([directory + "/assets//css", directory + "/assets//js"]))
  {
    GraphAt(directory, buildSass, jobs, "clean");
    LeadingAt(directory, buildSass);
    var targetDirectory := TargetDirectory(directory);
    assert targetDirectory + "/" + "css" == directory + "/assets//css";
    assert targetDirectory + "/" + "js" == directory + "/assets//js";
  }

  /**
   * `watch` and `build` list `clean` first, then their CSS task exactly when
   * Sass is on, then their JS task exactly when some bundle is registered.
   */
  lemma GraphComposites(directory: string, buildSass: bool, jobs: seq<BundleJob>,
                        kind: string, cssTask: string, jsTask: string)
    requires (kind, cssTask, jsTask) == ("watch", "css-watch", "js-watch")
          || (kind, cssTask, jsTask) == ("build", "css-build", "js-build")
    ensures var g := Graph(directory, buildSass, jobs);
      && kind in g
      && g[kind].action == NoAction
      && g[kind].deps[0] == "clean"
      && ((cssTask in g[kind].deps) <==> buildSass)
      && ((jsTask in g[kind].deps) <==> |jobs| > 0)
      && |g[kind].deps| == 1 + (if buildSass then 1 else 0) + (if |jobs| > 0 then 1 else 0)
      && (buildSass && |jobs| > 0 ==> g[kind].deps[1] == cssTask && g[kind].deps[2] == jsTask)
  {
    GraphAt(directory, buildSass, jobs, kind);
    TrailingComposite(buildSass, jobs, kind, cssTask, jsTask);
    DependsShape(buildSass, |jobs| > 0, cssTask, jsTask);
  }

  /** The three Sass tasks are registered exactly when Sass is on; `css-watch` runs `css-debug`. */
  lemma GraphCss(directory: string, buildSass: bool, jobs: seq<BundleJob>)
    ensures var g := Graph(directory, buildSass, jobs);
      && (("css-debug" in g) <==> buildSass)
      && (("css-build" in g) <==> buildSass)
      && (("css-watch" in g) <==> buildSass)
    ensures buildSass ==>
      var g := Graph(directory, buildSass, jobs);
      var src := directory + "/src/scss/**/*.scss";
      var dest := directory + "/assets/" + "/css/";
      && g["css-debug"] == Task([], CompileSass(src, dest, true))
      && g["css-build"] == Task([], CompileSass(src, dest, false))
      && g["css-watch"] == Task(["css-debug"], WatchSass(src, ["css-debug"]))
  {
    LeadingAt(directory, buildSass);
    GraphAt(directory, buildSass, jobs, "css-debug");
    GraphAt(directory, buildSass, jobs, "css-build");
    GraphAt(directory, buildSass, jobs, "css-watch");
  }

  /** Every bundle gets a watch task that bundles in debug mode and a build task that minifies. */
  lemma GraphBundles(directory: string, buildSass: bool, jobs: seq<BundleJob>, i: nat)
    requires DistinctNames(jobs) && i < |jobs|
    ensures var g := Graph(directory, buildSass, jobs);
      var jsDirectory := directory + "/assets/" + "/js/";
      && BundleTaskName(jobs[i].name, "watch") in g
      && BundleTaskName(jobs[i].name, "build") in g
      && g[BundleTaskName(jobs[i].name, "watch")] == Task([], RunBundle(jobs[i], jsDirectory, true))
      && g[BundleTaskName(jobs[i].name, "build")] == Task([], RunBundle(jobs[i], jsDirectory, false))
  {
    var jsDirectory := TargetDirectory(directory) + "/js/";
    BundleTaskLookup(jobs, jsDirectory, i, "watch");
    BundleTaskLookup(jobs, jsDirectory, i, "build");
    GraphAt(directory, buildSass, jobs, BundleTaskName(jobs[i].name, "watch"));
    GraphAt(directory, buildSass, jobs, BundleTaskName(jobs[i].name, "build"));
  }

  /**
   * `js-watch` and `js-build` exist exactly when some bundle is registered, and
   * depend on the per-bundle tasks, in bundle order.
   */
  lemma GraphJsAggregates(directory: string, buildSass: bool, jobs: seq<BundleJob>)
    ensures var g := Graph(directory, buildSass, jobs);
      && (("js-watch" in g) <==> |jobs| > 0)
      && (("js-build" in g) <==> |jobs| > 0)
    ensures |jobs| > 0 ==>
      var g := Graph(directory, buildSass, jobs);
      && g["js-watch"].action == NoAction && g["js-build"].action == NoAction
      && |g["js-watch"].deps| == |g["js-build"].deps| == |jobs|
      && (forall i :: 0 <= i < |jobs| ==>
            g["js-watch"].deps[i] == BundleTaskName(jobs[i].name, "watch") &&
            g["js-build"].deps[i] == BundleTaskName(jobs[i].name, "build"))
  {
    TrailingAggregate(buildSass, jobs, "js-watch", "watch");
    TrailingAggregate(buildSass, jobs, "js-build", "build");
    GraphAt(directory, buildSass, jobs, "js-watch");
    GraphAt(directory, buildSass, jobs, "js-build");
  }

  /**
   * `build()` registers exactly these names: `clean`, `watch` and `build`;
   * the CSS tasks when Sass is on; the aggregates when some bundle exists; and
   * the watch and build task of every bundle.
   */
  lemma GraphNames(directory: string, buildSass: bool, jobs: seq<BundleJob>, k: string)
    ensures k in Graph(directory, buildSass, jobs) <==>
      || k == "clean" || k == "watch" || k == "build"
      || (buildSass && (k == "css-debug" || k == "css-build" || k == "css-watch"))
      || (|jobs| > 0 && (k == "js-watch" || k == "js-build"))
      || (exists i :: 0 <= i < |jobs| &&
            (k == BundleTaskName(jobs[i].name, "watch") || k == BundleTaskName(jobs[i].name, "build")))
  {
    var jsDirectory := TargetDirectory(directory) + "/js/";
    GraphAt(directory, buildSass, jobs, k);
    LeadingAt(directory, buildSass);
    TrailingAggregate(buildSass, jobs, "js-watch", "watch");
    TrailingAggregate(buildSass, jobs, "js-build", "build");
    TrailingComposite(buildSass, jobs, "watch", "css-watch", "js-watch");
    TrailingComposite(buildSass, jobs, "build", "css-build", "js-build");
    if k in Leading(directory, buildSass) {
      LeadingNames(directory, buildSass, k);
    }
    if k in Trailing(buildSass, jobs) {
      TrailingNames(buildSass, jobs, k);
    }
    if k in BundleTasks(jobs, jsDirectory) {
      BundleTasksOwner(jobs, jsDirectory, k);
    }
    if exists i :: 0 <= i < |jobs| &&
         (k == BundleTaskName(jobs[i].name, "watch") || k == BundleTaskName(jobs[i].name, "build")) {
      var i :| 0 <= i < |jobs| &&
        (k == BundleTaskName(jobs[i].name, "watch") || k == BundleTaskName(jobs[i].name, "build"));
      BundleTasksHas(jobs, jsDirectory, i, "watch");
      BundleTasksHas(jobs, jsDirectory, i, "build");
    }
  }

  /** A bundle task name is registered exactly when a bundle of that name is. */
  lemma GraphBundleTaskName(directory: string, buildSass: bool, jobs: seq<BundleJob>, name: string, suffix: string)
    requires suffix == "watch" || suffix == "build"
    ensures BundleTaskName(name, suffix) in Graph(directory, buildSass, jobs) <==>
      exists i :: 0 <= i < |jobs| && jobs[i].name == name
  {
    var k := BundleTaskName(name, suffix);
    GraphNames(directory, buildSass, jobs, k);
    BundleTaskNameShape(name, suffix);
    NamesDisjoint(k);
    if exists i :: 0 <= i < |jobs| &&
         (k == BundleTaskName(jobs[i].name, "watch") || k == BundleTaskName(jobs[i].name, "build")) {
      var i :| 0 <= i < |jobs| &&
        (k == BundleTaskName(jobs[i].name, "watch") || k == BundleTaskName(jobs[i].name, "build"));
      if k == BundleTaskName(jobs[i].name, "watch") {
        BundleTaskNameInjective(name, suffix, jobs[i].name, "watch");
      } else {
        BundleTaskNameInjective(name, suffix, jobs[i].name, "build");
      }
    }
    if exists i :: 0 <= i < |jobs| && jobs[i].name == name {
      var i :| 0 <= i < |jobs| && jobs[i].name == name;
      assert k == BundleTaskName(jobs[i].name, suffix);
    }
  }

  /** A dependency of `js-watch` or `js-build` is the matching task of some bundle. */
  lemma AggregateDep(jobs: seq<BundleJob>, suffix: string, d: string)
    requires d in AddTaskSuffix(JsTaskNames(jobs), suffix)
    ensures exists i :: 0 <= i < |jobs| && d == BundleTaskName(jobs[i].name, suffix)
  {
    var deps := AddTaskSuffix(JsTaskNames(jobs), suffix);
    var i :| 0 <= i < |deps| && deps[i] == d;
    assert d == BundleTaskName(jobs[i].name, suffix);
  }

  /** A task's level: composites above aggregates above the tasks that do work. */
  function Rank(name: string): (n: nat) {
    if name == "watch" || name == "build" then 2
    else if name == "js-watch" || name == "js-build" || name == "css-watch" then 1
    else 0
  }

  /** One dependency edge of a task registered before the bundle loop. */
  lemma LeadingStep(directory: string, buildSass: bool, t: string, d: string)
    requires t in Leading(directory, buildSass) && d in Leading(directory, buildSass)[t].deps
    ensures d in Leading(directory, buildSass) && Rank(d) < Rank(t)
  {
    LeadingAt(directory, buildSass);
  }

  /** A dependency of `js-watch` or `js-build`: a registered per-bundle task. */
  lemma AggregateStep(directory: string, buildSass: bool, jobs: seq<BundleJob>, suffix: string, d: string)
    requires suffix == "watch" || suffix == "build"
    requires d in AddTaskSuffix(JsTaskNames(jobs), suffix)
    ensures d in Graph(directory, buildSass, jobs) && Rank(d) == 0
  {
    AggregateDep(jobs, suffix, d);
    var i :| 0 <= i < |jobs| && d == BundleTaskName(jobs[i].name, suffix);
    BundleTaskNameShape(jobs[i].name, suffix);
    BundleTasksHas(jobs, TargetDirectory(directory) + "/js/", i, suffix);
    NamesDisjoint(d);
    GraphAt(directory, buildSass, jobs, d);
  }

  /** `clean`, the Sass tasks when Sass is on, and the aggregates when some bundle exists are registered. */
  lemma GraphHas(directory: string, buildSass: bool, jobs: seq<BundleJob>, k: string)
    requires k == "clean" || (buildSass && IsLeadingName(k)) || (|jobs| > 0 && (k == "js-watch" || k == "js-build"))
    ensures k in Graph(directory, buildSass, jobs)
  {
    GraphAt(directory, buildSass, jobs, k);
    if k == "js-watch" {
      TrailingAggregate(buildSass, jobs, k, "watch");
    } else if k == "js-build" {
      TrailingAggregate(buildSass, jobs, k, "build");
    } else {
      LeadingAt(directory, buildSass);
    }
  }

  /** An edge out of `js-watch` or `js-build`. */
  lemma AggregateEdge(directory: string, buildSass: bool, jobs: seq<BundleJob>, t: string, suffix: string, d: string)
    requires (t, suffix) == ("js-watch", "watch") || (t, suffix) == ("js-build", "build")
    requires t in Trailing(buildSass, jobs) && d in Trailing(buildSass, jobs)[t].deps
    ensures d in Graph(directory, buildSass, jobs) && Rank(d) < Rank(t)
  {
    TrailingAggregate(buildSass, jobs, t, suffix);
    AggregateStep(directory, buildSass, jobs, suffix, d);
  }

  /** An edge out of `watch` or `build`. */
  lemma CompositeEdge(directory: string, buildSass: bool, jobs: seq<BundleJob>,
                      t: string, cssTask: string, jsTask: string, d: string)
    requires (t, cssTask, jsTask) == ("watch", "css-watch", "js-watch")
          || (t, cssTask, jsTask) == ("build", "css-build", "js-build")
    requires t in Trailing(buildSass, jobs) && d in Trailing(buildSass, jobs)[t].deps
    ensures d in Graph(directory, buildSass, jobs) && Rank(d) < Rank(t)
  {
    TrailingComposite(buildSass, jobs, t, cssTask, jsTask);
    DependsShape(buildSass, |jobs| > 0, cssTask, jsTask);
    GraphHas(directory, buildSass, jobs, d);
  }

  /** One dependency edge of a task registered after the bundle loop. */
  lemma TrailingStep(directory: string, buildSass: bool, jobs: seq<BundleJob>, t: string, d: string)
    requires t in Trailing(buildSass, jobs) && d in Trailing(buildSass, jobs)[t].deps
    ensures d in Graph(directory, buildSass, jobs) && Rank(d) < Rank(t)
  {
    TrailingNames(buildSass, jobs, t);
    if t == "js-watch" {
      AggregateEdge(directory, buildSass, jobs, t, "watch", d);
    } else if t == "js-build" {
      AggregateEdge(directory, buildSass, jobs, t, "build", d);
    } else if t == "watch" {
      CompositeEdge(directory, buildSass, jobs, t, "css-watch", "js-watch", d);
    } else {
      CompositeEdge(directory, buildSass, jobs, t, "css-build", "js-build", d);
    }
  }

  /** One dependency edge of the whole graph. */
  lemma GraphStep(directory: string, buildSass: bool, jobs: seq<BundleJob>, t: string, d: string)
    requires t in Graph(directory, buildSass, jobs) && d in Graph(directory, buildSass, jobs)[t].deps
    ensures d in Graph(directory, buildSass, jobs) && Rank(d) < Rank(t)
  {
    GraphAt(directory, buildSass, jobs, t);
    if t in Trailing(buildSass, jobs) {
      TrailingStep(directory, buildSass, jobs, t, d);
    } else if t in Leading(directory, buildSass) {
      LeadingStep(directory, buildSass, t, d);
      GraphAt(directory, buildSass, jobs, d);
    } else {
      // a bundle task, which has no dependencies
      BundleTasksKey(jobs, TargetDirectory(directory) + "/js/", t);
    }
  }

  /** No registered task depends on a task that is not registered. */
  lemma GraphClosed(directory: string, buildSass: bool, jobs: seq<BundleJob>)
    ensures var g := Graph(directory, buildSass, jobs);
      forall t, d :: t in g && d in g[t].deps ==> d in g
  {
    var g := Graph(directory, buildSass, jobs);
    forall t, d | t in g && d in g[t].deps
      ensures d in g
    {
      GraphStep(directory, buildSass, jobs, t, d);
    }
  }

  /** Every dependency sits strictly lower, so the graph has no cycle. */
  lemma GraphAcyclic(directory: string, buildSass: bool, jobs: seq<BundleJob>)
    ensures var g := Graph(directory, buildSass, jobs);
      forall t, d :: t in g && d in g[t].deps ==> Rank(d) < Rank(t)
  {
    var g := Graph(directory, buildSass, jobs);
    forall t, d | t in g && d in g[t].deps
      ensures Rank(d) < Rank(t)
    {
      GraphStep(directory, buildSass, jobs, t, d);
    }
  }

  // Registering tasks one by one on a registry that already holds `before`
  // yields `before` overridden by the parts above.

  lemma UnionUpdate<K, V>(a: map<K, V>, b: map<K, V>, k: K, v: V)
    ensures (a + b)[k := v] == a + b[k := v]
  {
  }

  lemma UnionUpdate2<K, V>(a: map<K, V>, b: map<K, V>, k1: K, v1: V, k2: K, v2: V)
    ensures (a + b)[k1 := v1][k2 := v2] == a + b[k1 := v1][k2 := v2]
  {
    UnionUpdate(a, b, k1, v1);
    UnionUpdate(a, b[k1 := v1], k2, v2);
  }

  lemma UnionEmpty<K, V>(a: map<K, V>)
    ensures a + map[] == a
  {
  }

  lemma UnionAssoc<K, V>(a: map<K, V>, b: map<K, V>, c: map<K, V>)
    ensures (a + b) + c == a + (b + c)
  {
  }

  /** `clean` and the Sass tasks, registered in source order on top of `before`. */
  lemma LeadingRegistered(before: map<string, Task>, directory: string, buildSass: bool)
    ensures var targetDirectory := TargetDirectory(directory);
      var src := SassSource(directory);
      var clean := before["clean" := Task([], Clean(CleanPaths(targetDirectory)))];
      before + Leading(directory, buildSass)
      == if buildSass then
           clean
             ["css-debug" := Task([], CompileSass(src, targetDirectory + "/css/", true))]
             ["css-build" := Task([], CompileSass(src, targetDirectory + "/css/", false))]
             ["css-watch" := Task(["css-debug"], WatchSass(src, ["css-debug"]))]
         else clean
  {
    var targetDirectory := TargetDirectory(directory);
    var src := SassSource(directory);
    var c := map["clean" := Task([], Clean(CleanPaths(targetDirectory)))];
    UnionUpdate(before, map[], "clean", Task([], Clean(CleanPaths(targetDirectory))));
    UnionEmpty(before);
    assert map[]["clean" := Task([], Clean(CleanPaths(targetDirectory)))] == c;
    if buildSass {
      var d := Task([], CompileSass(src, targetDirectory + "/css/", true));
      var b := Task([], CompileSass(src, targetDirectory + "/css/", false));
      var w := Task(["css-debug"], WatchSass(src, ["css-debug"]));
      UnionUpdate(before, c, "css-debug", d);
      UnionUpdate(before, c["css-debug" := d], "css-build", b);
      UnionUpdate(before, c["css-debug" := d]["css-build" := b], "css-watch", w);
    }
  }

  /** One more bundle: its watch task, then its build task, and one more stem. */
  lemma BundleTasksAppend(before: map<string, Task>, jobs: seq<BundleJob>, i: nat, jsDirectory: string)
    requires i < |jobs|
    ensures (before + BundleTasks(jobs[..i], jsDirectory))
              [JsTaskName(jobs[i].name) + "-watch" := Task([], RunBundle(jobs[i], jsDirectory, true))]
              [JsTaskName(jobs[i].name) + "-build" := Task([], RunBundle(jobs[i], jsDirectory, false))]
            == before + BundleTasks(jobs[..i + 1], jsDirectory)
    ensures JsTaskNames(jobs[..i + 1]) == JsTaskNames(jobs[..i]) + [JsTaskName(jobs[i].name)]
  {
    var job := jobs[i];
    var all := jobs[..i + 1];
    assert all[..|all| - 1] == jobs[..i];
    assert all[|all| - 1] == job;
    var w := Task([], RunBundle(job, jsDirectory, true));
    var b := Task([], RunBundle(job, jsDirectory, false));
    var m := BundleTasks(jobs[..i], jsDirectory);
    assert JsTaskName(job.name) + "-watch" == BundleTaskName(job.name, "watch");
    assert JsTaskName(job.name) + "-build" == BundleTaskName(job.name, "build");
    UnionUpdate2(before, m, BundleTaskName(job.name, "watch"), w, BundleTaskName(job.name, "build"), b);
  }

  /** The aggregates when some bundle exists, then the composites. */
  lemma TrailingRegistered(before: map<string, Task>, buildSass: bool, jobs: seq<BundleJob>)
    ensures var aggregates :=
        if |jobs| > 0 then
          before
            ["js-watch" := Task(AddTaskSuffix(JsTaskNames(jobs), "watch"), NoAction)]
            ["js-build" := Task(AddTaskSuffix(JsTaskNames(jobs), "build"), NoAction)]
        else before;
      before + Trailing(buildSass, jobs)
      == aggregates
           ["watch" := Task(Depends(buildSass, |jobs| > 0, "css-watch", "js-watch"), NoAction)]
           ["build" := Task(Depends(buildSass, |jobs| > 0, "css-build", "js-build"), NoAction)]
  {
    var a := JsAggregates(jobs);
    var w := Task(Depends(buildSass, |jobs| > 0, "css-watch", "js-watch"), NoAction);
    var b := Task(Depends(buildSass, |jobs| > 0, "css-build", "js-build"), NoAction);
    UnionUpdate2(before, a, "watch", w, "build", b);
    UnionEmpty(before);
    if |jobs| > 0 {
      var jw := Task(AddTaskSuffix(JsTaskNames(jobs), "watch"), NoAction);
      var jb := Task(AddTaskSuffix(JsTaskNames(jobs), "build"), NoAction);
      UnionUpdate2(before, map[], "js-watch", jw, "js-build", jb);
    }
  }

  /** The three parts registered one after the other make up the graph. */
  lemma GraphRegistered(before: map<string, Task>, directory: string, buildSass: bool, jobs: seq<BundleJob>)
    ensures ((before + Leading(directory, buildSass)) + BundleTasks(jobs, TargetDirectory(directory) + "/js/"))
              + Trailing(buildSass, jobs)
            == before + Graph(directory, buildSass, jobs)
  {
    var l, b, t := Leading(directory, buildSass), BundleTasks(jobs, TargetDirectory(directory) + "/js/"),
      Trailing(buildSass, jobs);
    UnionAssoc(before, l, b);
    UnionAssoc(before, l + b, t);
  }
}

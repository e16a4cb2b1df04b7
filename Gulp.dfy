/**
 * The task runner as the build tool sees it: a registry of named tasks, each
 * with an ordered list of dependencies and an optional callback. Callbacks
 * run streams and touch the file system; here each one is a descriptor that
 * records what it would do.
 */
module Gulp {
  import opened Bundles

  datatype Action =
    | NoAction                                           // a task made only of dependencies
    | Clean(paths: seq<string>)                          // delete these paths (forced)
    | CompileSass(src: string, dest: string, debug: bool) // compile Sass, with source maps when debug
    | WatchSass(glob: string, tasks: seq<string>)        // re-run these tasks when the glob changes
    | RunBundle(job: BundleJob, dest: string, debug: bool) // bundle; debug: watch with source maps, else minify

  datatype Task = Task(deps: seq<string>, action: Action)

  class TaskRegistry {
    var tasks: map<string, Task>

    constructor ()
      ensures tasks == map[]
    {
      tasks := map[];
    }

    /** `task(name, deps, fn)`: defines the task, replacing any earlier one of that name. */
    method Register(name: string, deps: seq<string>, action: Action)
      modifies this
      ensures tasks == old(tasks)[name := Task(deps, action)]
    {
      tasks := tasks[name := Task(deps, action)];
    }
  }
}

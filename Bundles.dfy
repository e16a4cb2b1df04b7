/**
 * Values shared by both copies of the bundle builder: what a bundle hands to
 * browserify and what a bundle task captures when the task graph is built.
 */
module Bundles {
  import opened Wrappers

  /**
   * JavaScript's `s || fallback` for an optional string argument: an absent
   * argument and the empty string are both falsy.
   */
  function OrDefault(s: Option<string>, fallback: string): (r: string)
    ensures s.Some? && s.value != "" ==> r == s.value
    ensures s == None || s == Some("") ==> r == fallback
  {
    if s.Some? && s.value != "" then s.value else fallback
  }

  /** A module made available to other bundles: `require(name)` exposed as `alias`. */
  datatype Exposure = Exposure(name: string, alias: string)

  /** The record `expose(name, as)` pushes: the alias defaults to the module name. */
  function ExposeEntry(name: string, alias: Option<string>): (e: Exposure)
    ensures e.name == name
    ensures alias == None || alias == Some("") ==> e.alias == name
    ensures alias.Some? && alias.value != "" ==> e.alias == alias.value
  {
    Exposure(name, OrDefault(alias, name))
  }

  /** Each configured lookup path, resolved against the base directory. */
  function LookupPaths(baseDirectory: string, paths: seq<string>): (r: seq<string>)
    ensures |r| == |paths|
    ensures forall i :: 0 <= i < |paths| ==> r[i] == baseDirectory + "/" + paths[i]
  {
    if paths == [] then [] else [baseDirectory + "/" + paths[0]] + LookupPaths(baseDirectory, paths[1..])
  }

  /** Different path lists never resolve to the same lookup paths. */
  lemma LookupPathsInjective(baseDirectory: string, p: seq<string>, q: seq<string>)
    requires LookupPaths(baseDirectory, p) == LookupPaths(baseDirectory, q)
    ensures p == q
  {
    var n := |baseDirectory| + 1;
    forall i | 0 <= i < |p|
      ensures p[i] == q[i]
    {
      assert (baseDirectory + "/" + p[i])[n..] == p[i];
      assert (baseDirectory + "/" + q[i])[n..] == q[i];
    }
  }

  /** The browserify options a bundle computes: entry file and lookup paths. */
  datatype BrowserifyOptions = BrowserifyOptions(entries: string, paths: seq<string>)

  /**
   * Everything a bundle task captures from its bundle when the task is
   * created: the options, whether the tsify plugin is added, the exposed and
   * external modules, and the output file name.
   */
  datatype BundleJob = BundleJob(
    name: string,
    options: BrowserifyOptions,
    tsify: bool,
    exposed: seq<Exposure>,
    externals: seq<string>,
    target: string)
}

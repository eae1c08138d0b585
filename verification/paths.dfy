/**
 * Paths as Rust's `std::path::Path` sees them after splitting into components.
 * The root of an absolute path is kept as a flag; `components` holds the rest.
 */
module Paths {
  import opened Wrappers

  datatype Component = Normal(name: string) | CurDir | ParentDir

  datatype Path = Path(absolute: bool, components: seq<Component>)

  /** `Path::file_name`: the last component when it is a normal name. */
  function FileName(p: Path): (r: Option<string>)
    ensures r.Some? <==> |p.components| > 0 && p.components[|p.components| - 1].Normal?
    ensures r.Some? ==> p.components[|p.components| - 1] == Normal(r.value)
  {
    if |p.components| > 0 && p.components[|p.components| - 1].Normal? then
      Some(p.components[|p.components| - 1].name)
    else
      None
  }

  /** `Path::parent`: the path without its last component; none for the root and for the empty path. */
  function Parent(p: Path): (r: Option<Path>)
    ensures r.Some? <==> |p.components| > 0
    ensures r.Some? ==> r.value.absolute == p.absolute
    ensures r.Some? ==> r.value.components + [p.components[|p.components| - 1]] == p.components
  {
    if |p.components| > 0 then
      Some(Path(p.absolute, p.components[..|p.components| - 1]))
    else
      None
  }

  /** A path that has a file name always has a parent, so only the file-name check can reject a path. */
  lemma FileNameHasParent(p: Path)
    ensures FileName(p).Some? ==> Parent(p).Some?
  {
  }

  /** The sentinel file watched when no path is given on the command line: /var/run/reboot-required. */
  const DefaultSentinel: Path := Path(true, [Normal("var"), Normal("run"), Normal("reboot-required")])

  lemma DefaultSentinelIsValid()
    ensures FileName(DefaultSentinel) == Some("reboot-required")
    ensures Parent(DefaultSentinel) == Some(Path(true, [Normal("var"), Normal("run")]))
  {
    assert DefaultSentinel.components[..2] == [Normal("var"), Normal("run")];
  }
}

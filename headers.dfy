/** Locating the SuperCollider headers: `get_header_paths` and
    `find_headers` in faust2sc.py. The file system is the set of paths
    that exist; the working directory and `HOME` are parameters. */
module Headers {
  import opened Wrappers

  /** `Path(dir) / name` for the paths used here: no separator is added
      after a trailing "/", and an empty directory stands for ".". */
  function JoinPath(dir: string, name: string): string
  {
    if dir == "" then name
    else if dir[|dir| - 1] == '/' then dir + name
    else dir + "/" + name
  }

  /** The three header directories, in the order `get_header_paths`
      returns them. */
  datatype HeaderDirs = HeaderDirs(pluginInterface: string, server: string, common: string)

  function HeaderDirsOf(dir: string): HeaderDirs
  {
    HeaderDirs(JoinPath(dir, "plugin_interface"), JoinPath(dir, "server"), JoinPath(dir, "common"))
  }

  /** All three header directories exist under `dir`. */
  predicate Complete(dir: string, existing: set<string>)
  {
    var dirs := HeaderDirsOf(dir);
    dirs.pluginInterface in existing && dirs.server in existing && dirs.common in existing
  }

  /** `get_header_paths`: the three directories if all of them exist. */
  function HeaderPaths(dir: string, existing: set<string>): (r: Option<HeaderDirs>)
    ensures r.Some? <==>
      JoinPath(dir, "plugin_interface") in existing && JoinPath(dir, "server") in existing
      && JoinPath(dir, "common") in existing
    ensures r.Some? ==>
      r.value.pluginInterface in existing && r.value.server in existing && r.value.common in existing
      && r == Some(HeaderDirsOf(dir))
  {
    if Complete(dir, existing) then Some(HeaderDirsOf(dir)) else None
  }

  /** The common install locations, tried in this order. */
  const FixedFolders: seq<string> := [
    "/usr/local/include/SuperCollider",
    "/usr/local/include/supercollider",
    "/usr/include/SuperCollider",
    "/usr/include/supercollider",
    "/usr/local/include/SuperCollider/",
    "/usr/share/supercollider-headers"
  ]

  /** The folders searched after the user's path: the fixed list, then
      `supercollider` in the working directory, then in `HOME` when it is
      set to a non-empty value. */
  function SearchFolders(cwd: string, home: string): (folders: seq<string>)
    ensures |folders| == if home == "" then 7 else 8
    ensures folders[..6] == FixedFolders && folders[6] == JoinPath(cwd, "supercollider")
    ensures home != "" ==> folders[7] == JoinPath(home, "supercollider")
  {
    FixedFolders + [JoinPath(cwd, "supercollider")] + (if home != "" then [JoinPath(home, "supercollider")] else [])
  }

  /** `i` is the first complete candidate. */
  ghost predicate FirstCompleteAt(candidates: seq<string>, existing: set<string>, i: int)
  {
    0 <= i < |candidates| && Complete(candidates[i], existing)
    && forall j :: 0 <= j < i ==> !Complete(candidates[j], existing)
  }

  /** The headers under the first complete candidate, if there is one. */
  function FirstComplete(candidates: seq<string>, existing: set<string>): (r: Option<HeaderDirs>)
    ensures r.None? <==> forall i :: 0 <= i < |candidates| ==> !Complete(candidates[i], existing)
    ensures forall i :: FirstCompleteAt(candidates, existing, i) ==> r == Some(HeaderDirsOf(candidates[i]))
    decreases |candidates|
  {
    if |candidates| == 0 then None
    else if Complete(candidates[0], existing) then Some(HeaderDirsOf(candidates[0]))
    else
      var r := FirstComplete(candidates[1..], existing);
      assert forall i :: FirstCompleteAt(candidates, existing, i) ==> FirstCompleteAt(candidates[1..], existing, i - 1);
      r
  }

  /** `find_headers`: the user's path first, then each search folder in
      turn; `None` is the exit with "could not find SuperCollider headers". */
  method FindHeaders(headerPath: string, cwd: string, home: string, existing: set<string>)
    returns (r: Option<HeaderDirs>)
    ensures r == FirstComplete([headerPath] + SearchFolders(cwd, home), existing)
  {
    assert ([headerPath] + SearchFolders(cwd, home))[1..] == SearchFolders(cwd, home);
    r := HeaderPaths(headerPath, existing);
    if r.Some? {
      return;
    }

    var folders := FixedFolders + [JoinPath(cwd, "supercollider")];
    if home != "" {
      folders := folders + [JoinPath(home, "supercollider")];
    }
    assert folders == SearchFolders(cwd, home);

    for k := 0 to |folders|
      invariant FirstComplete(folders[k..], existing) == FirstComplete(folders, existing)
    {
      assert folders[k..][1..] == folders[k + 1..];
      r := HeaderPaths(folders[k], existing);
      if r.Some? {
        return;
      }
    }
    r := None;
  }

  /** When the user's path holds the headers, no other folder is looked at. */
  lemma UserPathWins(headerPath: string, cwd: string, home: string, existing: set<string>)
    requires Complete(headerPath, existing)
    ensures FirstComplete([headerPath] + SearchFolders(cwd, home), existing) == Some(HeaderDirsOf(headerPath))
  {
    assert FirstCompleteAt([headerPath] + SearchFolders(cwd, home), existing, 0);
  }

  /** The search gives up exactly when no candidate, `HOME` included only
      when set, holds all three directories. */
  lemma NotFoundExactly(headerPath: string, cwd: string, home: string, existing: set<string>)
    ensures FirstComplete([headerPath] + SearchFolders(cwd, home), existing).None? <==>
      !Complete(headerPath, existing)
      && (forall i :: 0 <= i < |FixedFolders| ==> !Complete(FixedFolders[i], existing))
      && !Complete(JoinPath(cwd, "supercollider"), existing)
      && (home != "" ==> !Complete(JoinPath(home, "supercollider"), existing))
  {
    var candidates := [headerPath] + SearchFolders(cwd, home);
    assert forall i :: 0 <= i < |FixedFolders| ==> candidates[i + 1] == FixedFolders[i];
    assert candidates[7] == JoinPath(cwd, "supercollider");
    if home != "" {
      assert candidates[8] == JoinPath(home, "supercollider");
    }
  }

  /** The fifth fixed folder is the first one with a trailing "/", so it
      names the same three directories. */
  lemma TrailingSlashFolderRepeatsFirst()
    ensures HeaderDirsOf(FixedFolders[4]) == HeaderDirsOf(FixedFolders[0])
  {
    var first := "/usr/local/include/SuperCollider";
    assert FixedFolders[4] == first + "/";
    assert (first + "/")[|first + "/"| - 1] == '/';
    assert first[|first| - 1] != '/';
  }
}

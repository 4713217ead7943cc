/** Three decisions of the command-line driver in faust2sc.py: the
    `noprefix` setting handed to the generators, which plugin objects are
    moved, and where they are moved to. Each is modelled as written and as
    evidently intended. */
module Driver {
  import opened Wrappers
  import opened Metadata
  import opened ClassName
  import opened Headers

  // ---- The prefix option ----

  /** The values the `--noprefix` option accepts: absent, 0 or 1. */
  predicate ValidPrefixOption(arg: Option<int>)
  {
    arg.None? || arg.value == 0 || arg.value == 1
  }

  /** `args.noprefix or 1` as written: Python's `or` replaces a falsy 0 by 1. */
  function NoPrefixAsWritten(arg: Option<int>): (n: int)
    ensures ValidPrefixOption(arg) ==> n == 1
  {
    if arg.Some? && arg.value != 0 then arg.value else 1
  }

  /** As written, no accepted option value gives a prefixed class name:
      `--noprefix 0` is read as 1. */
  lemma NoPrefixZeroIgnored(data: DspMeta, arg: Option<int>)
    requires ValidPrefixOption(arg)
    ensures GetClassName(data, NoPrefixAsWritten(arg)) == DspName(data)
  {
  }

  /** The option as documented: 1 (the default) omits the prefix, 0 adds it. */
  function NoPrefixSetting(arg: Option<int>): (n: int)
    ensures arg.None? ==> n == 1
    ensures arg.Some? ==> n == arg.value
  {
    if arg.Some? then arg.value else 1
  }

  /** With the intended reading, `--noprefix 0` gives the "Faust" prefix and
      the default gives the bare name. */
  lemma NoPrefixSettingHonoured(data: DspMeta, arg: Option<int>)
    requires ValidPrefixOption(arg)
    ensures arg == Some(0) ==>
      var name := GetClassName(data, NoPrefixSetting(arg));
      |name| >= |Prefix| && name[..|Prefix|] == Prefix
    ensures arg != Some(0) ==> GetClassName(data, NoPrefixSetting(arg)) == DspName(data)
  {
  }

  // ---- Moving the plugin objects ----

  /** `PurePath(name).suffix` for a file name: from the last "." to the
      end, unless that dot starts the name or ends it. */
  function Suffix(name: string): (r: string)
    ensures r == "" || (|r| >= 2 && r[0] == '.' && '.' !in r[1..])
    ensures r != "" ==> |r| <= |name| - 1 && r == name[|name| - |r|..]
  {
    LastDotFacts(name, |name|);
    var i := LastDot(name, |name|);
    if 0 < i < |name| - 1 then name[i..] else ""
  }

  /** The index of the last "." in `name[..end]`, or -1. */
  function LastDot(name: string, end: nat): (i: int)
    requires end <= |name|
    decreases end
  {
    if end == 0 then -1
    else if name[end - 1] == '.' then end - 1
    else LastDot(name, end - 1)
  }

  lemma {:induction false} LastDotFacts(name: string, end: nat)
    requires end <= |name|
    ensures -1 <= LastDot(name, end) < end
    ensures LastDot(name, end) >= 0 ==> name[LastDot(name, end)] == '.'
    ensures forall j :: LastDot(name, end) < j < end ==> name[j] != '.'
    decreases end
  {
    if end > 0 && name[end - 1] != '.' {
      LastDotFacts(name, end - 1);
    }
  }

  /** The entries of the working folder with the given suffix, in order. */
  function WithSuffix(entries: seq<string>, suffix: string): (r: seq<string>)
    ensures |r| <= |entries|
    ensures forall e :: e in r <==> e in entries && Suffix(e) == suffix
  {
    if |entries| == 0 then []
    else if Suffix(entries[0]) == suffix then [entries[0]] + WithSuffix(entries[1..], suffix)
    else WithSuffix(entries[1..], suffix)
  }

  /** Selection keeps the order of the folder listing: selecting from two
      listings one after the other is selecting from each in turn. */
  lemma {:induction false} WithSuffixAppend(a: seq<string>, b: seq<string>, suffix: string)
    ensures WithSuffix(a + b, suffix) == WithSuffix(a, suffix) + WithSuffix(b, suffix)
  {
    if |a| > 0 {
      assert (a + b)[0] == a[0];
      assert (a + b)[1..] == a[1..] + b;
      WithSuffixAppend(a[1..], b, suffix);
    } else {
      assert a + b == b;
    }
  }

  /** The objects moved as written: those whose suffix equals `ext`. */
  function MovedAsWritten(entries: seq<string>, ext: string): seq<string>
  {
    WithSuffix(entries, ext)
  }

  /** As written nothing is ever moved for a plugin extension such as
      "so" or "scx": a suffix is empty or starts with ".". */
  lemma {:induction false} NothingMovedAsWritten(entries: seq<string>, ext: string)
    requires ext != "" && ext[0] != '.'
    ensures MovedAsWritten(entries, ext) == []
  {
    if |entries| > 0 {
      assert Suffix(entries[0]) != ext;
      NothingMovedAsWritten(entries[1..], ext);
    }
  }

  /** The objects moved as intended: those whose suffix is "." and `ext`. */
  function MovedObjects(entries: seq<string>, ext: string): seq<string>
  {
    WithSuffix(entries, "." + ext)
  }

  lemma ObjectSuffix(stem: string, ext: string)
    requires stem != "" && ext != "" && '.' !in ext
    ensures Suffix(stem + "." + ext) == "." + ext
  {
    var name := stem + "." + ext;
    var dot := |stem|;
    assert name[dot] == '.';
    assert forall j :: dot < j < |name| ==> name[j] == ext[j - dot - 1];
    LastDotFacts(name, |name|);
    var i := LastDot(name, |name|);
    assert i == dot;
    assert name[dot..] == "." + ext;
  }

  /** Both plugin objects `compile` writes, `<class>.<ext>` and
      `<class>_supernova.<ext>`, are moved when they are in the working
      folder and the class name is not empty. */
  lemma PluginObjectsMoved(entries: seq<string>, className: string, ext: string)
    requires className != "" && ext != "" && '.' !in ext
    ensures className + "." + ext in entries ==> className + "." + ext in MovedObjects(entries, ext)
    ensures className + "_supernova." + ext in entries ==>
      className + "_supernova." + ext in MovedObjects(entries, ext)
  {
    ObjectSuffix(className, ext);
    ObjectSuffix(className + "_supernova", ext);
    assert className + "_supernova" + "." + ext == className + "_supernova." + ext;
  }

  // ---- Where the plugin objects are moved ----

  /** `PurePath(dir) / name`: an absolute `name` replaces `dir`. */
  function PathJoin(dir: string, name: string): string
  {
    if |name| > 0 && name[0] == '/' then name else JoinPath(dir, name)
  }

  /** One `shutil.move`: from `source` to `target`. */
  datatype Move = Move(source: string, target: string)

  /** The move as written for the folder entry `entry`: `iterdir` yields
      `tmp_path / entry`, and the move goes from `tmp_path / objfile` to
      `trg_path / objfile`. */
  function MoveAsWritten(tmpPath: string, trgPath: string, entry: string): Move
  {
    var objfile := PathJoin(tmpPath, entry);
    Move(PathJoin(tmpPath, objfile), PathJoin(trgPath, objfile))
  }

  /** The temporary folder's name is absolute, so `objfile` is absolute and
      both joins give `objfile` back: as written each object is moved onto
      itself and stays in the temporary folder. */
  lemma MoveOntoItselfAsWritten(tmpPath: string, trgPath: string, entry: string)
    requires |tmpPath| > 0 && tmpPath[0] == '/'
    ensures MoveAsWritten(tmpPath, trgPath, entry).source == PathJoin(tmpPath, entry)
    ensures MoveAsWritten(tmpPath, trgPath, entry).target == PathJoin(tmpPath, entry)
  {
    var objfile := PathJoin(tmpPath, entry);
    assert |objfile| > 0 && objfile[0] == '/' by {
      if !(|entry| > 0 && entry[0] == '/') {
        assert objfile[..|tmpPath|] == tmpPath;
      }
    }
  }

  /** The move as intended: from `tmp_path / entry` to `trg_path / objfile.name`. */
  function MoveIntended(tmpPath: string, trgPath: string, entry: string): Move
  {
    Move(PathJoin(tmpPath, entry), PathJoin(trgPath, entry))
  }

  /** For an entry name and two folders written without a trailing "/", the
      intended move puts the object under the target folder, which differs
      from its place in the temporary folder unless the folders coincide. */
  lemma MovedIntoTarget(tmpPath: string, trgPath: string, entry: string)
    requires entry != "" && '/' !in entry
    requires tmpPath != "" && tmpPath[|tmpPath| - 1] != '/'
    requires trgPath != "" && trgPath[|trgPath| - 1] != '/'
    ensures MoveIntended(tmpPath, trgPath, entry).target == trgPath + "/" + entry
    ensures MoveIntended(tmpPath, trgPath, entry).source == tmpPath + "/" + entry
    ensures tmpPath != trgPath ==>
      MoveIntended(tmpPath, trgPath, entry).source != MoveIntended(tmpPath, trgPath, entry).target
  {
    assert entry[0] in entry;
    if tmpPath + "/" + entry == trgPath + "/" + entry {
      assert tmpPath + "/" + entry == tmpPath + ("/" + entry);
      assert trgPath + "/" + entry == trgPath + ("/" + entry);
      SameFolder(tmpPath, trgPath, "/" + entry);
    }
  }

  lemma SameFolder(a: string, b: string, tail: string)
    requires a + tail == b + tail
    ensures a == b
  {
    assert a == (a + tail)[..|a|];
    assert b == (b + tail)[..|b|];
  }
}

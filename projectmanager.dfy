/** src/ProjectManager.ts: finding projects in a directory tree
    (`getProjects`) and creating a new one (`createProject`). */
module ProjectManager {
  import opened Host

  // ----- getProjects -----

  /** A path below the scanned directory, as the names of the entries walked
      through; [] is the scanned directory itself. */
  type Path = seq<string>

  /** A directory entry as `fs.lstat` sees it: a directory with its listing,
      or anything else (a file, a symbolic link, ...). */
  datatype Node = Dir(name: string, listing: Listing) | Other(name: string)

  /** What `fs.readdir` gives for a directory: its entries, or an error. */
  datatype Listing = Readable(entries: seq<Node>) | Unreadable

  /** `files.some(x => x.includes('.'))` */
  predicate HasDottedEntry(entries: seq<Node>) {
    exists i :: 0 <= i < |entries| && '.' in entries[i].name
  }

  /** The paths `getProjects(path, callback, skip)` hands to `callback`, in
      any order. A directory is reported when one of its entries has a '.' in
      its name; a reported directory is searched further only when `skip`
      is set, which holds for the first call alone. Only entries `lstat`
      calls directories are searched. A directory that cannot be read
      reports nothing (the source throws from the callback). */
  function Projects(listing: Listing, skip: bool): (found: set<Path>)
    ensures [] in found <==> listing.Readable? && HasDottedEntry(listing.entries)
    decreases listing
  {
    match listing
    case Unreadable => {}
    case Readable(entries) =>
      var here: set<Path> := if HasDottedEntry(entries) then {[]} else {};
      if HasDottedEntry(entries) && !skip then here
      else here + set i, p | 0 <= i < |entries| && entries[i].Dir? && p in Projects(entries[i].listing, false)
        :: [entries[i].name] + p
  }

  /** Reference definition, path by path: `path` is reported when the
      directory it names has a dotted entry, and every directory above it
      was searched: readable, and either not reported itself or the scanned
      root with `skip` set. */
  ghost predicate Reported(listing: Listing, path: Path, skip: bool)
    decreases path
  {
    match listing
    case Unreadable => false
    case Readable(entries) =>
      if path == [] then HasDottedEntry(entries)
      else
        && (!HasDottedEntry(entries) || skip)
        && exists i :: 0 <= i < |entries| && entries[i].Dir? && entries[i].name == path[0]
             && Reported(entries[i].listing, path[1..], false)
  }

  /** The scan reports exactly the paths the reference definition admits. */
  lemma {:induction false} ProjectsAreReported(listing: Listing, path: Path, skip: bool)
    ensures path in Projects(listing, skip) <==> Reported(listing, path, skip)
    decreases path
  {
    match listing
    case Unreadable =>
    case Readable(entries) =>
      if path != [] {
        var found := Projects(listing, skip);
        if path in found {
          var i, p :| 0 <= i < |entries| && entries[i].Dir? && p in Projects(entries[i].listing, false)
            && path == [entries[i].name] + p;
          assert p == path[1..];
          ProjectsAreReported(entries[i].listing, path[1..], false);
        }
        if Reported(listing, path, skip) {
          var i :| 0 <= i < |entries| && entries[i].Dir? && entries[i].name == path[0]
            && Reported(entries[i].listing, path[1..], false);
          ProjectsAreReported(entries[i].listing, path[1..], false);
          assert path == [entries[i].name] + path[1..];
        }
      }
  }

  /** Within one directory no two entries share a name, at every level. */
  ghost predicate UniqueNames(listing: Listing)
    decreases listing
  {
    match listing
    case Unreadable => true
    case Readable(entries) =>
      && (forall i, j :: 0 <= i < |entries| && 0 <= j < |entries| && i != j ==> entries[i].name != entries[j].name)
      && (forall i :: 0 <= i < |entries| && entries[i].Dir? ==> UniqueNames(entries[i].listing))
  }

  /** A nested reported directory is not searched: nothing below it is
      reported. Only the scanned root, searched with `skip` set, can have
      reported directories below it. */
  lemma NestedReportedIsLeaf(listing: Listing, path: Path, below: Path, skip: bool)
    requires UniqueNames(listing)
    requires path != [] && below != []
    requires path in Projects(listing, skip)
    ensures path + below !in Projects(listing, skip)
  {
    ProjectsAreReported(listing, path, skip);
    ProjectsAreReported(listing, path + below, skip);
    ReportedLeaf(listing, path, below, skip);
  }

  lemma {:induction false} ReportedLeaf(listing: Listing, path: Path, below: Path, skip: bool)
    requires UniqueNames(listing)
    requires path != [] && below != []
    requires Reported(listing, path, skip)
    ensures !Reported(listing, path + below, skip)
    decreases path
  {
    var entries := listing.entries;
    var full := path + below;
    assert full[0] == path[0] && full[1..] == path[1..] + below;
    var j :| 0 <= j < |entries| && entries[j].Dir? && entries[j].name == path[0]
      && Reported(entries[j].listing, path[1..], false);
    if path[1..] == [] {
      // That directory has a dotted entry, and a call without `skip` stops there.
      assert full[1..] == below;
      assert !Reported(entries[j].listing, full[1..], false);
    } else {
      ReportedLeaf(entries[j].listing, path[1..], below, false);
    }
    forall i | 0 <= i < |entries| && entries[i].Dir? && entries[i].name == full[0]
      ensures !Reported(entries[i].listing, full[1..], false)
    {
      assert i == j;
    }
  }

  /** The first call keeps searching after reporting the scanned root: a
      directory below it is reported exactly as if the root had not been
      reported. A nested call that reports its directory reports nothing
      else. */
  lemma RootKeepsSearching(entries: seq<Node>, path: Path)
    requires path != []
    ensures path in Projects(Readable(entries), true) <==>
      exists i :: 0 <= i < |entries| && entries[i].Dir? && entries[i].name == path[0]
        && path[1..] in Projects(entries[i].listing, false)
    ensures HasDottedEntry(entries) ==> Projects(Readable(entries), false) == {[]}
  {
    ProjectsAreReported(Readable(entries), path, true);
    forall i | 0 <= i < |entries| && entries[i].Dir?
      ensures path[1..] in Projects(entries[i].listing, false) <==> Reported(entries[i].listing, path[1..], false)
    {
      ProjectsAreReported(entries[i].listing, path[1..], false);
    }
  }

  /** `path` leads, entry by entry, through entries `lstat` calls
      directories, and every directory along it, the last included, could be
      read. */
  ghost predicate ReadableDirectoryPath(listing: Listing, path: Path)
    decreases path
  {
    && listing.Readable?
    && (path != [] ==>
          exists i :: 0 <= i < |listing.entries| && listing.entries[i].Dir? && listing.entries[i].name == path[0]
            && ReadableDirectoryPath(listing.entries[i].listing, path[1..]))
  }

  /** Only directories are searched: every reported path runs, at every
      level, through readable entries `lstat` calls directories. */
  lemma OnlyDirectoriesSearched(listing: Listing, path: Path, skip: bool)
    requires path in Projects(listing, skip)
    ensures ReadableDirectoryPath(listing, path)
  {
    ProjectsAreReported(listing, path, skip);
    ReportedAlongDirectories(listing, path, skip);
  }

  lemma {:induction false} ReportedAlongDirectories(listing: Listing, path: Path, skip: bool)
    requires Reported(listing, path, skip)
    ensures ReadableDirectoryPath(listing, path)
    decreases path
  {
    if path != [] {
      var entries := listing.entries;
      var i :| 0 <= i < |entries| && entries[i].Dir? && entries[i].name == path[0]
        && Reported(entries[i].listing, path[1..], false);
      ReportedAlongDirectories(entries[i].listing, path[1..], false);
    }
  }

  // ----- createProject -----

  /** The sample written into a new project's `main.cpp`. */
  const SampleFile: string :=
    "#include <iostream>\nusing namespace std;\n\nint main()\n{\n    cout << \"Hello world\" << endl;\n\n    return 0;\n}\n"

  /** What a path on disk holds. */
  datatype FsNode = Directory | File(content: string)

  /** Why a filesystem call failed. */
  datatype FsError = NotADirectory

  /** The path, every directory above it and the root ([]): the
      directories `mkdirSync(path, {recursive: true})` makes sure of. */
  function Prefixes(path: Path): (r: set<Path>)
    ensures forall k :: 0 <= k <= |path| ==> path[..k] in r
    ensures forall q :: q in r ==> |q| <= |path| && q == path[..|q|]
  {
    set k | 0 <= k <= |path| :: path[..k]
  }

  /** `mkdirSync(path, {recursive: true})` on `nodes`: every missing
      directory along the path is created; it fails, changing nothing, when
      the path runs into a file. */
  function MakeDirectories(nodes: map<Path, FsNode>, path: Path): (r: Option<map<Path, FsNode>>)
    ensures r.None? <==> exists q :: q in Prefixes(path) && q in nodes && nodes[q].File?
    ensures r.Some? ==> forall q :: q in nodes ==> q in r.value && r.value[q] == nodes[q]
    ensures r.Some? ==> forall q :: q in Prefixes(path) ==> q in r.value && r.value[q] == Directory
    ensures r.Some? ==> forall q :: q in r.value && q !in nodes ==> q in Prefixes(path)
  {
    if exists q :: q in Prefixes(path) && q in nodes && nodes[q].File? then None
    else Some(nodes + map q | q in Prefixes(path) && q !in nodes :: Directory)
  }

  /** Everything above an existing path is an existing directory. */
  ghost predicate Closed(nodes: map<Path, FsNode>) {
    forall p, k :: p in nodes && 0 <= k < |p| ==> p[..k] in nodes && nodes[p[..k]] == Directory
  }

  /** Creating the missing directories along a path keeps the filesystem
      closed. */
  lemma MakeDirectoriesKeepsClosed(nodes: map<Path, FsNode>, path: Path)
    requires Closed(nodes) && MakeDirectories(nodes, path).Some?
    ensures Closed(MakeDirectories(nodes, path).value)
  {
    var made := MakeDirectories(nodes, path).value;
    forall p, k | p in made && 0 <= k < |p|
      ensures p[..k] in made && made[p[..k]] == Directory
    {
      if p !in nodes {
        assert p in Prefixes(path);
        assert p == path[..|p|];
        assert p[..k] == path[..k];
      }
    }
  }

  /** So does writing a file into a directory. */
  lemma WriteKeepsClosed(nodes: map<Path, FsNode>, dir: Path, name: string, content: string)
    requires Closed(nodes) && dir in nodes && nodes[dir] == Directory && dir + [name] !in nodes
    ensures Closed(nodes[dir + [name] := File(content)])
  {
    var file := dir + [name];
    var written := nodes[file := File(content)];
    forall p, k | p in written && 0 <= k < |p|
      ensures p[..k] in written && written[p[..k]] == Directory
    {
      if p != file {
        assert p[..k] in nodes;
      } else {
        assert p[..k] == dir[..k];
        if k < |dir| {
          assert dir[..k] in nodes;
        } else {
          assert p[..k] == dir;
        }
      }
    }
  }

  /** The filesystem `createProject` works on: every path that exists and
      what it holds. */
  class FileSystem {
    var nodes: map<Path, FsNode>

    ghost predicate Valid()
      reads this
    {
      Closed(nodes)
    }

    constructor (nodes: map<Path, FsNode>)
      requires Closed(nodes)
      ensures Valid() && this.nodes == nodes
    {
      this.nodes := nodes;
    }

    /** `createProject`: for a path that does not exist, create it (with any
      missing parents) and write the sample into `main.cpp`; for a path that
      exists, only make sure it is a directory, writing nothing. Opening the
      folder in the editor is left out. */
    method CreateProject(path: Path) returns (err: Option<FsError>)
      requires Valid()
      modifies this
      ensures Valid()
      ensures err.None? <==> !exists q :: q in Prefixes(path) && q in old(nodes) && old(nodes)[q].File?
      ensures err.Some? ==> nodes == old(nodes)
      ensures err.None? ==> path in nodes && nodes[path] == Directory
      ensures err.None? ==> forall q :: q in old(nodes) ==> q in nodes && nodes[q] == old(nodes)[q]
      ensures err.None? && path !in old(nodes) ==>
        path + ["main.cpp"] in nodes && nodes[path + ["main.cpp"]] == File(SampleFile)
      ensures err.None? ==>
        forall q :: q in nodes && q !in old(nodes) ==> q in Prefixes(path) || q == path + ["main.cpp"]
      ensures err.None? && path in old(nodes) ==> nodes == old(nodes)
    {
      if path !in nodes {
        var made := MakeDirectories(nodes, path);
        if made.None? {
          return Some(NotADirectory);
        }
        NewProjectWritten(nodes, path);
        nodes := made.value[path + ["main.cpp"] := File(SampleFile)];
      } else {
        var made := MakeDirectories(nodes, path);
        if made.None? {
          return Some(NotADirectory);
        }
        ExistingPathUntouched(nodes, path);
        nodes := made.value;
      }
      return None;
    }
  }

  /** On a path that does not exist, `createProject` leaves a closed
      filesystem in which the path is a directory holding `main.cpp` with
      the sample, and everything that existed is as it was. */
  lemma NewProjectWritten(nodes: map<Path, FsNode>, path: Path)
    requires Closed(nodes) && path !in nodes && MakeDirectories(nodes, path).Some?
    ensures var after := MakeDirectories(nodes, path).value[path + ["main.cpp"] := File(SampleFile)];
      && Closed(after)
      && path in after && after[path] == Directory
      && after[path + ["main.cpp"]] == File(SampleFile)
      && (forall q :: q in nodes ==> q in after && after[q] == nodes[q])
      && (forall q :: q in after && q !in nodes ==> q in Prefixes(path) || q == path + ["main.cpp"])
  {
    var made := MakeDirectories(nodes, path).value;
    MakeDirectoriesKeepsClosed(nodes, path);
    assert (path + ["main.cpp"])[..|path|] == path;
    assert path + ["main.cpp"] !in made;
    assert path[..|path|] == path;
    WriteKeepsClosed(made, path, "main.cpp", SampleFile);
  }

  /** On a path that exists, `mkdirSync` changes nothing: it fails on a
      file and has nothing to create for a directory. */
  lemma ExistingPathUntouched(nodes: map<Path, FsNode>, path: Path)
    requires Closed(nodes) && path in nodes
    ensures MakeDirectories(nodes, path) == if nodes[path].File? then None else Some(nodes)
  {
    assert path[..|path|] == path;
    if nodes[path] == Directory {
      forall q | q in Prefixes(path)
        ensures q in nodes && nodes[q] == Directory
      {
        if |q| < |path| {
          assert q == path[..|q|];
        }
      }
      var made := MakeDirectories(nodes, path).value;
      assert made == nodes;
    }
  }
}

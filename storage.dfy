/**
 * The filesystem the session manager works on, abstracted as a map from file
 * path to contents plus the set of existing directories.  A path is the
 * sequence of its components; `a / b` in the source is `a + [b]`.
 */
module Storage {

  newtype byte = b: int | 0 <= b < 256

  type Bytes = seq<byte>

  type Path = seq<string>

  /** The directories `mkdir(parents=True)` ensures for `p`: every non-empty prefix of `p`, `p` included. */
  function Prefixes(p: Path): set<Path>
  {
    set k | 0 < k <= |p| :: p[..k]
  }

  /** The directories that must exist for a file at `p` to exist. */
  function Ancestors(p: Path): set<Path>
  {
    set k | 0 < k < |p| :: p[..k]
  }

  /** `Path.parent`. */
  function Parent(p: Path): Path
  {
    if |p| == 0 then [] else p[..|p| - 1]
  }

  /** `p` lies strictly inside directory `d`. */
  predicate Under(d: Path, p: Path)
  {
    |d| < |p| && p[..|d|] == d
  }

  /** Every file sits in an existing directory tree. */
  ghost predicate WellFormed(files: map<Path, Bytes>, dirs: set<Path>)
  {
    forall p :: p in files ==> Ancestors(p) <= dirs
  }

  lemma ParentPrefixes(p: Path)
    ensures Prefixes(Parent(p)) == Ancestors(p)
  {
    if |p| > 0 {
      var q := Parent(p);
      forall a | a in Ancestors(p) ensures a in Prefixes(q) {
        var k :| 0 < k < |p| && a == p[..k];
        assert a == q[..k];
      }
      forall a | a in Prefixes(q) ensures a in Ancestors(p) {
        var k :| 0 < k <= |q| && a == q[..k];
        assert a == p[..k];
      }
    }
  }

  /** The bytes a file contributes to the size of directory `d`. */
  function Contribution(files: map<Path, Bytes>, p: Path, d: Path): nat
  {
    if p in files && Under(d, p) then |files[p]| else 0
  }

  ghost function Pick(s: set<Path>): Path
    requires s != {}
  {
    var p :| p in s; p
  }

  /** The total size of the files among `keys` that lie inside `d`. */
  ghost function SumOver(files: map<Path, Bytes>, keys: set<Path>, d: Path): nat
    decreases keys
  {
    if keys == {} then 0
    else
      var p := Pick(keys);
      Contribution(files, p, d) + SumOver(files, keys - {p}, d)
  }

  /** What a recursive walk (`rglob('*')` with `stat().st_size`) adds up for directory `d`. */
  ghost function SizeUnder(files: map<Path, Bytes>, d: Path): nat
  {
    SumOver(files, files.Keys, d)
  }

  /** The sum does not depend on the order in which the files are visited. */
  lemma {:induction false} SumOverRemove(files: map<Path, Bytes>, keys: set<Path>, d: Path, q: Path)
    requires q in keys
    ensures SumOver(files, keys, d) == Contribution(files, q, d) + SumOver(files, keys - {q}, d)
    decreases keys
  {
    var p := Pick(keys);
    if p != q {
      SumOverRemove(files, keys - {p}, d, q);
      SumOverRemove(files, keys - {q}, d, p);
      assert keys - {p} - {q} == keys - {q} - {p};
    }
  }

  lemma {:induction false} SumOverOutside(files: map<Path, Bytes>, keys: set<Path>, d: Path)
    requires forall p :: p in keys ==> !Under(d, p)
    ensures SumOver(files, keys, d) == 0
    decreases keys
  {
    if keys != {} {
      SumOverOutside(files, keys - {Pick(keys)}, d);
    }
  }

  /** A directory that does not exist holds no bytes, so the `exists()` guard agrees with the walk. */
  lemma NoFilesUnderMissingDir(files: map<Path, Bytes>, dirs: set<Path>, d: Path)
    requires WellFormed(files, dirs)
    requires |d| > 0
    ensures d !in dirs ==> SizeUnder(files, d) == 0
  {
    forall p | p in files.Keys ensures Under(d, p) ==> d in dirs {
      if Under(d, p) {
        assert p[..|d|] in Ancestors(p);
      }
    }
    if d !in dirs {
      SumOverOutside(files, files.Keys, d);
    }
  }

  lemma PrefixChain(d: Path, a: Path, p: Path)
    requires a <= p
    ensures d <= a ==> d <= p
  {
    if d <= a {
      assert p[..|d|] == a[..|d|];
    }
  }

  /** Files that survive `shutil.rmtree(d)`. */
  function FilesOutside(files: map<Path, Bytes>, d: Path): map<Path, Bytes>
  {
    map p | p in files && !(d <= p) :: files[p]
  }

  /** Directories that survive `shutil.rmtree(d)`. */
  function DirsOutside(dirs: set<Path>, d: Path): set<Path>
  {
    set p | p in dirs && !(d <= p)
  }

  /** The operating system's files and directories. */
  class FileSystem {
    var files: map<Path, Bytes>
    var dirs: set<Path>

    ghost predicate Valid()
      reads this
    {
      WellFormed(files, dirs)
    }

    constructor ()
      ensures Valid()
      ensures files == map[] && dirs == {}
    {
      files := map[];
      dirs := {};
    }

    /** `p.mkdir(parents=True, exist_ok=True)`. */
    method MakeDirs(p: Path)
      requires Valid()
      modifies this
      ensures Valid()
      ensures dirs == old(dirs) + Prefixes(p) && files == old(files)
    {
      dirs := dirs + Prefixes(p);
    }

    /** `open(p, 'wb')` followed by writing `content`: creates or truncates the file. */
    method WriteFile(p: Path, content: Bytes)
      requires Valid() && Ancestors(p) <= dirs
      modifies this
      ensures Valid()
      ensures files == old(files)[p := content] && dirs == old(dirs)
    {
      files := files[p := content];
    }

    /** `f.write(chunk)` on a file already open for writing. */
    method AppendFile(p: Path, chunk: Bytes)
      requires Valid() && p in files
      modifies this
      ensures Valid()
      ensures files == old(files)[p := old(files[p]) + chunk] && dirs == old(dirs)
    {
      files := files[p := files[p] + chunk];
    }

    /** `p.unlink()` of an existing file. */
    method Unlink(p: Path)
      requires Valid() && p in files
      modifies this
      ensures Valid()
      ensures files == old(files) - {p} && dirs == old(dirs)
    {
      files := files - {p};
    }

    /** `shutil.rmtree(d)`: removes `d` and everything below it. */
    method RemoveTree(d: Path)
      requires Valid()
      modifies this
      ensures Valid()
      ensures files == FilesOutside(old(files), d) && dirs == DirsOutside(old(dirs), d)
    {
      var oldDirs := dirs;
      files := FilesOutside(files, d);
      dirs := DirsOutside(dirs, d);
      forall p | p in files ensures Ancestors(p) <= dirs {
        forall a | a in Ancestors(p) ensures a in dirs {
          var k :| 0 < k < |p| && a == p[..k];
          assert a in oldDirs;
          PrefixChain(d, a, p);
        }
      }
    }
  }
}

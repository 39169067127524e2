/** An abstract file system: a set of directories and a map from file paths to
    contents, with the three operations saving a postscript needs. Failures the
    model cannot predict (permissions, a full disk, interrupted writes) are left
    to the environment: any step may fail with `Other`. */
module Files {
  import opened Results

  datatype IoError = NotADirectory | NotFound | IsADirectory | Other

  /** The directories above `path`: every non-empty prefix that stops just before a `/`. */
  function Ancestors(path: string): (above: set<string>)
    ensures forall d :: d in above ==> 0 < |d| < |path| && d == path[..|d|] && path[|d|] == '/'
    ensures forall i :: 0 < i < |path| && path[i] == '/' ==> path[..i] in above
  {
    set i | 0 < i < |path| && path[i] == '/' :: path[..i]
  }

  /** The directories above a directory above `path` are above `path` too. */
  lemma AncestorsClosed(path: string, d: string)
    requires d in Ancestors(path)
    ensures Ancestors(d) <= Ancestors(path)
  {
    forall a | a in Ancestors(d) ensures a in Ancestors(path) {
      assert path[|a|] == d[|a|];
      assert a == path[..|a|];
    }
  }

  class FileSystem {
    var dirs: set<string>
    var files: map<string, string>

    /** No path is both a file and a directory, and everything sits in existing directories. */
    ghost predicate Valid()
      reads this
    {
      dirs !! files.Keys &&
      (forall d :: d in dirs ==> Ancestors(d) <= dirs) &&
      (forall f :: f in files ==> Ancestors(f) <= dirs)
    }

    constructor ()
      ensures Valid() && dirs == {} && files == map[]
    {
      dirs := {};
      files := map[];
    }

    /** Creates every missing directory above `path`, as `create_dir_all` on its parent does.
        A file where a directory should be stops it before anything is created. */
    method EnsureContainingDirExists(path: string) returns (r: Outcome<IoError>)
      requires Valid()
      modifies this
      ensures Valid()
      ensures files == old(files)
      ensures r.Pass? ==> dirs == old(dirs) + Ancestors(path)
      ensures r.Fail? ==> dirs == old(dirs)
      ensures !(Ancestors(path) !! files.Keys) ==> r == Fail(NotADirectory)
    {
      if !(Ancestors(path) !! files.Keys) {
        return Fail(NotADirectory);
      }
      var fails: bool :| true;
      if fails {
        return Fail(Other);
      }
      forall d | d in dirs + Ancestors(path) ensures Ancestors(d) <= dirs + Ancestors(path) {
        if d in Ancestors(path) {
          AncestorsClosed(path, d);
        }
      }
      dirs := dirs + Ancestors(path);
      return Pass;
    }

    /** Opens `path` for writing, creating it or truncating what it held (`File::create`). */
    method Create(path: string) returns (r: Outcome<IoError>)
      requires Valid()
      modifies this
      ensures Valid()
      ensures dirs == old(dirs)
      ensures r.Pass? ==> files == old(files)[path := []]
      ensures r.Fail? ==> files == old(files)
      ensures path == "" || !(Ancestors(path) <= dirs) ==> r == Fail(NotFound)
      ensures path in dirs ==> r.Fail?
    {
      if path == "" || !(Ancestors(path) <= dirs) {
        return Fail(NotFound);
      }
      if path in dirs {
        return Fail(IsADirectory);
      }
      var fails: bool :| true;
      if fails {
        return Fail(Other);
      }
      files := files[path := []];
      return Pass;
    }

    /** Appends all of `data` to the open file `path` (`write_all`); a failure can
        leave any shorter prefix of `data` written. */
    method WriteAll(path: string, data: string) returns (r: Outcome<IoError>)
      requires Valid() && path in files
      modifies this
      ensures Valid()
      ensures dirs == old(dirs)
      ensures r.Pass? ==> files == old(files)[path := old(files)[path] + data]
      ensures r.Fail? ==> exists k :: 0 <= k < |data| && files == old(files)[path := old(files)[path] + data[..k]]
      ensures data == [] ==> r.Pass?
    {
      var k: nat :| k <= |data|;
      if k < |data| {
        files := files[path := files[path] + data[..k]];
        return Fail(Other);
      }
      files := files[path := files[path] + data];
      return Pass;
    }
  }
}

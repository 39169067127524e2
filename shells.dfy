/** Shell detection and dispatch: which shell notion is running under, where its
    postscript goes, and how a postscript is rendered for it. */
module Shells {
  import opened Results
  import opened Postscripts
  import BashScript
  import Files

  /** The failures detection and saving can report. */
  datatype Error =
    | UnspecifiedShell
    | UnspecifiedPostscript
    | UnrecognizedShell(name: string)
    | Io

  /** The shells notion supports; each knows the file its postscript is written to. */
  datatype Shell = Bash(postscriptPath: string)
  {
    /** The file this shell sources after notion exits. */
    function PostscriptPath(): (path: string)
      ensures this.Bash? ==> path == this.postscriptPath
    {
      match this
      case Bash(path) => path
    }

    /** The text this shell sources to carry out `p`. */
    function CompilePostscript(p: Postscript): (text: string)
      ensures this.Bash? ==> text == BashScript.Compile(p)
    {
      match this
      case Bash(_) => BashScript.Compile(p)
    }
  }

  /** The name under which a shell is announced in the environment. */
  function ShellName(s: Shell): (name: string)
    ensures name == "bash" <==> s.Bash?
  {
    match s
    case Bash(_) => "bash"
  }

  /** The shell detected for this process; it only forwards to the shell it wraps. */
  datatype CurrentShell = CurrentShell(inner: Shell)
  {
    function PostscriptPath(): (path: string)
      ensures path == inner.PostscriptPath()
    {
      match this
      case CurrentShell(shell) => shell.PostscriptPath()
    }

    function CompilePostscript(p: Postscript): (text: string)
      ensures text == inner.CompilePostscript(p)
    {
      match this
      case CurrentShell(shell) => shell.CompilePostscript(p)
    }
  }

  /** Parses a shell name, given the postscript path the environment announces.
      The path is required first, so a missing path wins over an unknown name. */
  function FromStr(src: string, postscriptPath: Option<string>): (r: Result<CurrentShell, Error>)
    ensures postscriptPath.None? ==> r == Err(UnspecifiedPostscript)
    ensures r.Ok? <==> postscriptPath.Some? && src == "bash"
    ensures r.Ok? ==> r.value.inner.Bash? && r.value.PostscriptPath() == postscriptPath.value
    ensures postscriptPath.Some? && src != "bash" ==> r == Err(UnrecognizedShell(src))
  {
    var path :- postscriptPath.OkOr(UnspecifiedPostscript);
    if src == "bash" then Ok(CurrentShell(Bash(path)))
    else Err(UnrecognizedShell(src))
  }

  /** Detects the current shell from the shell name and the postscript path the
      environment announces; without a name the path is never looked at. */
  function Detect(shellName: Option<string>, postscriptPath: Option<string>): (r: Result<CurrentShell, Error>)
    ensures shellName.None? ==> r == Err(UnspecifiedShell)
    ensures shellName.Some? && postscriptPath.None? ==> r == Err(UnspecifiedPostscript)
    ensures r.Ok? <==> shellName == Some("bash") && postscriptPath.Some?
    ensures r.Ok? ==> r.value.inner == Bash(postscriptPath.value)
    ensures shellName.Some? && shellName.value != "bash" && postscriptPath.Some?
            ==> r == Err(UnrecognizedShell(shellName.value))
  {
    match shellName
    case Some(name) => FromStr(name, postscriptPath)
    case None => Err(UnspecifiedShell)
  }

  /** Detection never reports an I/O error: it reads no file. */
  lemma DetectNeverIo(shellName: Option<string>, postscriptPath: Option<string>)
    ensures Detect(shellName, postscriptPath).Err? ==> !Detect(shellName, postscriptPath).error.Io?
  {
  }

  /** Announcing a shell by its own name and postscript path detects that same shell. */
  lemma DetectShellName(s: Shell)
    ensures Detect(Some(ShellName(s)), Some(s.PostscriptPath())) == Ok(CurrentShell(s))
  {
  }

  /** Detection succeeds only for a shell announced under its own name, and then
      gives back the announced path. */
  lemma DetectInvertsShellName(shellName: Option<string>, postscriptPath: Option<string>)
    requires Detect(shellName, postscriptPath).Ok?
    ensures shellName == Some(ShellName(Detect(shellName, postscriptPath).value.inner))
    ensures postscriptPath == Some(Detect(shellName, postscriptPath).value.PostscriptPath())
  {
  }

  /** The detected shell renders postscripts exactly as the Bash renderer does. */
  lemma DetectedBashCompiles(postscriptPath: string, p: Postscript)
    ensures Detect(Some("bash"), Some(postscriptPath)).Ok?
    ensures Detect(Some("bash"), Some(postscriptPath)).value.CompilePostscript(p) == BashScript.Compile(p)
  {
  }

  /** Writes `text` to the file `path`: first the directories above it, then the
      file is created or truncated, then the text is written. Each step's failure
      is reported as `Io` and ends the save. */
  method SaveText(fs: Files.FileSystem, path: string, text: string) returns (r: Outcome<Error>)
    requires fs.Valid()
    modifies fs
    ensures fs.Valid()
    ensures r.Fail? ==> r.error == Io
    ensures r.Pass? ==> fs.files == old(fs.files)[path := text]
    ensures r.Pass? ==> Files.Ancestors(path) <= fs.dirs
    ensures old(fs.dirs) <= fs.dirs <= old(fs.dirs) + Files.Ancestors(path)
    ensures r.Fail? ==>
      fs.files == old(fs.files) || exists k :: 0 <= k < |text| && fs.files == old(fs.files)[path := text[..k]]
    ensures fs.files != old(fs.files) ==> Files.Ancestors(path) <= fs.dirs
    ensures !(Files.Ancestors(path) !! old(fs.files).Keys) ==>
      r == Fail(Io) && fs.files == old(fs.files) && fs.dirs == old(fs.dirs)
  {
    var made := fs.EnsureContainingDirExists(path);
    if made.Fail? {
      return Fail(Io);
    }
    var created := fs.Create(path);
    if created.Fail? {
      return Fail(Io);
    }
    ghost var empty := fs.files;
    var written := fs.WriteAll(path, text);
    if written.Fail? {
      ghost var k :| 0 <= k < |text| && fs.files == empty[path := empty[path] + text[..k]];
      assert empty[path] + text[..k] == text[..k];
      assert fs.files == old(fs.files)[path := text[..k]];
      return Fail(Io);
    }
    assert empty[path] + text == text;
    return Pass;
  }

  /** `save_postscript`: the shell's postscript file ends up holding exactly the
      compiled postscript, whatever it held before. */
  method SavePostscript(shell: CurrentShell, fs: Files.FileSystem, p: Postscript) returns (r: Outcome<Error>)
    requires fs.Valid()
    modifies fs
    ensures fs.Valid()
    ensures r.Fail? ==> r.error == Io
    ensures r.Pass? ==> fs.files == old(fs.files)[shell.PostscriptPath() := shell.CompilePostscript(p)]
    ensures old(fs.dirs) <= fs.dirs <= old(fs.dirs) + Files.Ancestors(shell.PostscriptPath())
    ensures r.Fail? ==>
      fs.files == old(fs.files) ||
      exists k :: 0 <= k < |shell.CompilePostscript(p)| &&
        fs.files == old(fs.files)[shell.PostscriptPath() := shell.CompilePostscript(p)[..k]]
    ensures fs.files != old(fs.files) ==> Files.Ancestors(shell.PostscriptPath()) <= fs.dirs
    ensures !(Files.Ancestors(shell.PostscriptPath()) !! old(fs.files).Keys) ==>
      r == Fail(Io) && fs.files == old(fs.files) && fs.dirs == old(fs.dirs)
  {
    r := SaveText(fs, shell.PostscriptPath(), shell.CompilePostscript(p));
  }
}

# Notion shell integration, modelled in Dafny

Notion is a tool-version manager. A process cannot change its parent shell's
environment, so notion writes a *postscript* instead. A postscript is a short
shell script that the user's shell sources after each notion command. The
shell integration layer does three things:

- It renders each postscript intent as text for the running shell:
  - `Activate(path)` and `Deactivate(path)` set `PATH`;
  - `Activate` also sets `NOTION_HOME`, and `Deactivate` unsets it;
  - `ToolVersion(tool, version)` exports `NOTION_<TOOL>_VERSION`.
- It detects the running shell from two environment signals: the shell name and the postscript path.
- It saves the rendered text to the shell's postscript file.

The modules follow that structure:

| module | file | contents |
|---|---|---|
| `Results` | results.dfy | `Option`, `Result` and `Outcome` |
| `Strings` | strings.dfy | searching and matching inside strings |
| `Semver` | semver.dfy | a version triple, its canonical text, and a reader that inverts it |
| `Postscripts` | postscripts.dfy | the `Postscript` intent |
| `BashScript` | bash_script.dfy | the bash rendering that the unit test fixes |
| `ShellFragment` | shell_fragment.dfy | an independent reference meaning for rendered text |
| `BashSemantics` | bash_semantics.dfy | what sourcing each rendered postscript does |
| `Shells` | shells.dfy | errors, `Shell`, `CurrentShell`, `FromStr`, `Detect` and `SavePostscript` |
| `Files` | files.dfy | an abstract file system, as a class with the three steps of a save |

`ShellFragment` covers only the lines postscripts use: `export NAME=WORD` and
`unset NAME`. A word is built from plain characters, single-quoted strings, and
double-quoted strings with `${NAME}` expansion. The semantics of that fragment
follow the POSIX Shell Command Language (IEEE Std 1003.1), section 2.2
(Quoting) and section 2.6.2 (Parameter Expansion).

The defect in the rendering is modelled exactly as it is. A path is placed
between single quotes without escaping, so a path with a single quote breaks
its quoting. The unit test at `mod.rs:96-102` relies on this, with an
`ISSUE(#99)` marker. `BashSemantics.SourceBrokenQuote` states what the shell
then makes of such a path.

Facts about the code that the model keeps:

- `from_str` looks up the postscript path before it matches the shell name (mod.rs:67 comes before mod.rs:69). Without a path, an unsupported name such as `"zsh"` therefore gives `UnspecifiedPostscript`, not `UnrecognizedShell`.
- Paths are not escaped. The source's own `// ISSUE(#99): proper escaping` comment (mod.rs:96) marks escaping as intended but not done.
- `save_postscript` calls `File::create` before `write_all` (mod.rs:31-32). `File::create` truncates an existing file, so a failed write does not keep the earlier contents. The file may be left empty or holding part of the text.
- The postscript file is the path that `env::postscript_path()` returns (mod.rs:67), used as it is. `save_postscript` creates the directories above that path and writes the file there (mod.rs:30-32).

## Model

| member | source | states |
|---|---|---|
| BashScript.Compile | crates/notion-core/src/shell/mod.rs:88-115 | every rendered postscript ends in exactly one newline |
| BashScript.Upper | crates/notion-core/src/shell/mod.rs:104-110 | upper-casing keeps the length and maps each character to its upper-case form |
| BashScript.UpperIdempotent | crates/notion-core/src/shell/mod.rs:104-110 | upper-casing an upper-cased tool name changes nothing |
| BashScript.DeactivateTestCase | crates/notion-core/src/shell/mod.rs:91-94 | `Deactivate("some:path")` renders as `export PATH='some:path'` then `unset NOTION_HOME` |
| BashScript.QuotedDeactivateTestCase | crates/notion-core/src/shell/mod.rs:96-102 | a path with single quotes is copied between the quotes unescaped |
| BashScript.ToolVersionTestCase | crates/notion-core/src/shell/mod.rs:104-110 | tool `test` at 2.4.5 renders as `export NOTION_TEST_VERSION=2.4.5` |
| BashScript.ActivateTestCase | crates/notion-core/src/shell/mod.rs:112-115 | `Activate("some:path")` renders as the PATH export then the fixed `NOTION_HOME="${HOME}/.notion"` export |
| Semver.NatToString | crates/notion-core/src/shell/mod.rs:107-109 | a number's text is non-empty decimal digits, with a leading zero only for 0 |
| Semver.ToString | crates/notion-core/src/shell/mod.rs:107-109 | a version's text is non-empty, uses only digits and dots, and ends in a digit |
| Semver.ParseToString | crates/notion-core/src/shell/mod.rs:107-109 | reading a version's canonical text gives back that version |
| Semver.ToStringInjective | crates/notion-core/src/shell/mod.rs:104-110 | different versions render as different text |
| Semver.ParseTestVersion | crates/notion-core/src/shell/mod.rs:107 | `Version::parse("2.4.5")` is the version 2.4.5 |
| BashSemantics.SourceActivate | crates/notion-core/src/shell/mod.rs:112-115 | for a path without a single quote, sourcing an activation sets PATH to the path and NOTION_HOME to `$HOME/.notion`, and changes nothing else |
| BashSemantics.SourceDeactivate | crates/notion-core/src/shell/mod.rs:91-94 | for a path without a single quote, sourcing a deactivation sets PATH to the path, unsets NOTION_HOME, and changes nothing else |
| BashSemantics.SourceToolVersion | crates/notion-core/src/shell/mod.rs:104-110 | for a tool name of letters, digits and `_`, sourcing a tool version sets only that tool's variable, to the version's canonical text |
| BashSemantics.SourceCompile | crates/notion-core/src/shell/mod.rs:88-115 | every intent with a quote-free path renders to text that sources without fault to the intended environment |
| BashSemantics.SourcingTwiceIsSourcingOnce | crates/notion-core/src/shell/mod.rs:88-115 | for a postscript whose path has no single quote and whose tool name is made of letters, digits and `_`, sourcing it twice has the same effect as sourcing it once |
| BashSemantics.DeactivateUndoesActivate | crates/notion-core/src/shell/mod.rs:91-115 | for paths without a single quote, deactivating after an activation gives the same environment as deactivating directly |
| BashSemantics.QuotedPathIsNotRestored | crates/notion-core/src/shell/mod.rs:96-102 | a path with a single quote and no double quote never ends up as PATH after its deactivation is sourced |
| BashSemantics.SourceBrokenQuote | crates/notion-core/src/shell/mod.rs:96-102 | for a path `head'tail'` with no single quote in `head` and only plain characters in `tail`, PATH becomes `head` followed by `tail`, with the quotes gone |
| BashSemantics.SourceAppendingPath | crates/notion-core/src/shell/mod.rs:96-102 | the unescaped path `'"${PATH}"x'` makes a deactivation append `x` to the PATH it finds, unsets NOTION_HOME, and changes nothing else |
| BashSemantics.AppendingPathNotIdempotent | crates/notion-core/src/shell/mod.rs:96-102 | sourcing that deactivation twice, from an empty environment, differs from sourcing it once |
| BashSemantics.AppendingPathRemembersActivate | crates/notion-core/src/shell/mod.rs:96-115 | from an empty environment, sourcing that deactivation after activating the path `a` gives a different environment than sourcing it directly |
| BashSemantics.QuotedTestCaseSourced | crates/notion-core/src/shell/mod.rs:96-102 | the unit test's quoted path reaches the shell as `/path:/with:/singlequotes` |
| Shells.Shell.PostscriptPath | crates/notion-core/src/shell/mod.rs:25 | the Bash shell's postscript file is the path it was built with |
| Shells.Shell.CompilePostscript | crates/notion-core/src/shell/mod.rs:27 | the Bash shell renders with the bash renderer |
| Shells.CurrentShell.PostscriptPath | crates/notion-core/src/shell/mod.rs:52-55 | the current shell forwards `postscript_path` unchanged to the shell it wraps |
| Shells.CurrentShell.CompilePostscript | crates/notion-core/src/shell/mod.rs:57-60 | the current shell forwards `compile_postscript` unchanged to the shell it wraps |
| Shells.ShellName | crates/notion-core/src/shell/mod.rs:69-70 | `"bash"` is the name of the Bash shell and of no other shell |
| Shells.FromStr | crates/notion-core/src/shell/mod.rs:66-77 | no path gives `UnspecifiedPostscript` for any name; with a path, exactly `"bash"` gives Bash with that path; any other name gives `UnrecognizedShell` carrying the name |
| Shells.Detect | crates/notion-core/src/shell/mod.rs:41-47 | no shell name gives `UnspecifiedShell`, whatever the path; otherwise the result is the one `from_str` gives, with success exactly for `"bash"` plus a path |
| Shells.DetectNeverIo | crates/notion-core/src/shell/mod.rs:41-78 | detection never fails with an I/O error |
| Shells.DetectShellName | crates/notion-core/src/shell/mod.rs:63-78 | announcing a shell under its own name, with its own path, detects that shell |
| Shells.DetectInvertsShellName | crates/notion-core/src/shell/mod.rs:41-78 | a successful detection had the detected shell's own name and path as its signals |
| Shells.DetectedBashCompiles | crates/notion-core/src/shell/mod.rs:57-70 | the detected Bash shell renders each postscript as the bash renderer does |
| Shells.SaveText | crates/notion-core/src/shell/mod.rs:29-35 | on success the file holds exactly the text, whatever it held before; every failure is `Io`; the file is touched only once its directories exist (a consequence of the preserved `Valid()`, stated for the reader); a file in place of a directory fails before anything changes; a failed save leaves the file unchanged or holding a proper prefix of the text's characters |
| Shells.SavePostscript | crates/notion-core/src/shell/mod.rs:29-35 | the same guarantees as `SaveText`, for the shell's postscript path and its compiled postscript |
| Files.Ancestors | crates/notion-core/src/shell/mod.rs:30 | the directories above a path are exactly its non-empty prefixes that stop before a `/` |
| Files.AncestorsClosed | crates/notion-core/src/shell/mod.rs:30 | the directories above a directory above a path are also above that path |
| Files.FileSystem.EnsureContainingDirExists | crates/notion-core/src/shell/mod.rs:30 | on success every directory above the path exists and only those were added; files are untouched; a file in place of a directory fails with nothing created |
| Files.FileSystem.Create | crates/notion-core/src/shell/mod.rs:31 | on success the file exists and is empty; it fails when a directory above it is missing or the path is a directory |
| Files.FileSystem.WriteAll | crates/notion-core/src/shell/mod.rs:32-33 | on success all of the data is appended; on failure a proper prefix of its characters is appended; empty data always succeeds |

## Left out

- `bash.rs` (the Bash shell itself) is not part of this model. The rendering is the one the unit test at `mod.rs:88-115` fixes, generalised over its arguments.
- BashScript.Upper: upper-cases ASCII letters only. Unicode case mapping of tool names is not modelled.
- Semver: a version is a `major.minor.patch` triple. Pre-release and build metadata are not modelled, because the `semver` crate is not part of this model. `Semver.Parse` reads only canonical text.
- `env::shell_name()` and `env::postscript_path()` read process state. They become the `Option` parameters of `Shells.Detect` and `Shells.FromStr`.
- `NotionError`, `throw!` and `.unknown()` become the `Shells.Error` datatype, which carries no messages. Every file-system failure becomes `Io`.
- `Box<dyn Shell>` becomes the closed datatype `Shells.Shell`, with the one variant `Bash`.
- The real file system is replaced by `Files.FileSystem`, a set of directories plus a map from paths to contents:
  - Failures the model cannot predict (permissions, a full disk) are chosen arbitrarily at each step.
  - Symbolic links, `..` and other path normalisation are not modelled.
  - `ensure_containing_dir_exists` lives in a module that is not part of this model. It is modelled as creating every directory above the path.
- Files.FileSystem.EnsureContainingDirExists: an unforeseen failure creates no directories. A real recursive creation may have made some of them first. `Shells.SaveText` states only that the directories after a save lie between the old ones and the old ones plus those above the path.
- Files.FileSystem.WriteAll: file contents and paths are character strings, but the source writes the bytes of the text (`as_bytes()`, mod.rs:32). A failed write that stops inside a multi-byte UTF-8 character leaves a byte prefix that is not a prefix of the characters, and that state is not represented. Paths that are not valid UTF-8 are not represented either.
- Shells.SaveText: inherits the character-level view of `Files.FileSystem.WriteAll`. Its "a proper prefix of the text" after a failed write holds for characters only, not for a byte prefix that splits a multi-byte character.
- Shells.SavePostscript: the same limit as `Shells.SaveText`, for the shell's postscript path and its compiled postscript.
- Concurrent notion processes racing on the same postscript file are not modelled.
- `ShellFragment` is a reference meaning for postscript text, not a model of bash. Text outside the fragment is a `Fault`, and nothing is said about what bash would do with it.
- BashSemantics.SourceCompile: covers only paths without a single quote, and tool names made only of name characters.
- BashSemantics.SourcingTwiceIsSourcingOnce: stated only for paths without a single quote. Because the quote is not escaped, a path can make a postscript that is not idempotent: `'"${PATH}"x'` appends `x` to PATH on every sourcing (`BashSemantics.AppendingPathNotIdempotent`).
- BashSemantics.DeactivateUndoesActivate: stated only for paths without a single quote. With the same path `'"${PATH}"x'`, the result of a deactivation depends on the PATH an earlier activation set (`BashSemantics.AppendingPathRemembersActivate`).
- BashSemantics.QuotedPathIsNotRestored: stated only for paths without a double quote. With double quotes, "PATH is restored exactly when the path has no single quote" is false. For example, the path `'"${X}"'` is restored when the variable `X` already holds that path.
